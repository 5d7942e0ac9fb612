/** The log file: length-prefixed entry records, and what replaying a file, whole or cut, yields. */
module WalSpec {
  import opened Bytes
  import opened RaftTypes

  /** [term:8][index:8][kind:1][length:4][data] */
  function Record(e: Entry): seq<Byte> {
    LE(e.term, 8) + LE(e.index, 8) + [e.kind] + LE(|e.data|, 4) + e.data
  }

  function Records(es: seq<Entry>): seq<Byte> {
    if es == [] then [] else Record(es[0]) + Records(es[1..])
  }

  const HEADER: nat := 21

  /** One record off the front of the file, and the rest; None where the stream runs dry. */
  function ReadRecord(bs: seq<Byte>): Option<(Entry, seq<Byte>)> {
    if |bs| < HEADER then None
    else
      var len := UnLE(bs[17..21]);
      if |bs| < HEADER + len then None
      else Some((Entry(UnLE(bs[..8]), UnLE(bs[8..16]), bs[16], bs[HEADER..HEADER + len]), bs[HEADER + len..]))
  }

  const DUMMY := Entry(0, 0, 0, [])

  /** The vector slot of an index, growing the vector with default entries where needed. */
  function Place(entries: seq<Entry>, e: Entry): seq<Entry> {
    if e.index < |entries| then entries[e.index := e]
    else entries + seq(e.index - |entries|, _ => DUMMY) + [e]
  }

  function ReplayFrom(entries: seq<Entry>, bs: seq<Byte>): (r: seq<Entry>)
    ensures |r| >= |entries|
    decreases |bs|
  {
    match ReadRecord(bs)
    case None => entries
    case Some((e, rest)) => ReplayFrom(Place(entries, e), rest)
  }

  /** Startup: a dummy at index 0, then every whole record in file order. */
  function Replay(bs: seq<Byte>): (r: seq<Entry>)
    ensures |r| >= 1
  {
    ReplayFrom([DUMMY], bs)
  }

  /** The bytes that replay leaves: a record that was cut short, or nothing. */
  function Unread(bs: seq<Byte>): seq<Byte>
    decreases |bs|
  {
    match ReadRecord(bs)
    case None => bs
    case Some((_, rest)) => Unread(rest)
  }

  // ----- the hard state file -----

  datatype HardState = HardState(term: nat, vote: NodeId, commit: nat)

  /** [term:8][vote:8][commit:8] */
  function HardBytes(hs: HardState): (bs: seq<Byte>)
    ensures |bs| == 24
  {
    LE(hs.term, 8) + LE(hs.vote, 8) + LE(hs.commit, 8)
  }

  /** A number of 8 bytes, of which the file may hold fewer. */
  function FieldAt(bs: seq<Byte>, off: nat): nat {
    if off >= |bs| then 0 else UnLE(bs[off..Min(off + 8, |bs|)])
  }

  /** Fields that are missing stay 0; of one that is cut, the bytes that are there are taken. */
  function ReadHardState(bs: seq<Byte>): HardState { HardState(FieldAt(bs, 0), FieldAt(bs, 8), FieldAt(bs, 16)) }

  ghost predicate HardFits(hs: HardState) { hs.term < U64 && hs.vote < U64 && hs.commit < U64 }

  /** What is written whole is read back. */
  lemma {:induction false} HardStateReadsBack(hs: HardState)
    requires HardFits(hs)
    ensures ReadHardState(HardBytes(hs)) == hs
  {
    PowersOf256();
    LERoundTrip(hs.term, 8);
    LERoundTrip(hs.vote, 8);
    LERoundTrip(hs.commit, 8);
    hide LE;
    hide UnLE;
    var bs, t, v, c := HardBytes(hs), LE(hs.term, 8), LE(hs.vote, 8), LE(hs.commit, 8);
    assert bs[0..8] == t && bs[8..16] == v && bs[16..24] == c;
  }

  /** The bytes of a field of 8 bytes at `off` that lie in front of a cut at byte k. */
  function BytesKept(off: nat, k: nat): nat { Min(8, Max(0, k - off)) }

  /** Cut at byte k, a field reads as the bytes that are kept. */
  lemma {:induction false} CutField(hs: HardState, k: nat)
    requires k <= 24
    ensures var bs := HardBytes(hs)[..k];
            && FieldAt(bs, 0) == UnLE(LE(hs.term, 8)[..BytesKept(0, k)])
            && FieldAt(bs, 8) == UnLE(LE(hs.vote, 8)[..BytesKept(8, k)])
  {
    hide LE;
    var all, bs, t, v := HardBytes(hs), HardBytes(hs)[..k], LE(hs.term, 8), LE(hs.vote, 8);
    assert all[0..8] == t && all[8..16] == v;
    assert bs[0..BytesKept(0, k)] == t[..BytesKept(0, k)];
    assert k > 8 ==> bs[8..8 + BytesKept(8, k)] == v[..BytesKept(8, k)];
  }

  /** A write that is cut at byte k loses neither term nor vote exactly when the missing bytes are zero. */
  lemma {:induction false} HardStateSurvivesExactlyWhen(hs: HardState, k: nat)
    requires k <= 24
    ensures var cut := ReadHardState(HardBytes(hs)[..k]);
            cut.term == hs.term && cut.vote == hs.vote <==>
            hs.term < Pow256(BytesKept(0, k)) && hs.vote < Pow256(BytesKept(8, k))
  {
    CutField(hs, k);
    FrontReadsExactlyWhen(hs.term, 8, BytesKept(0, k));
    FrontReadsExactlyWhen(hs.vote, 8, BytesKept(8, k));
  }

  // ----- what fits the record format -----

  ghost predicate Fits(e: Entry) { e.term < U64 && e.index < U64 && |e.data| < U32 }

  /** Entries numbered from `first`, each of which fits. */
  ghost predicate Batch(es: seq<Entry>, first: nat) {
    forall i :: 0 <= i < |es| ==> es[i].index == first + i && Fits(es[i])
  }

  lemma {:induction false} BatchTail(es: seq<Entry>, first: nat)
    requires Batch(es, first) && es != []
    ensures Fits(es[0]) && es[0].index == first && Batch(es[1..], first + 1)
  {
  }

  lemma {:induction false} RecordsAppend(a: seq<Entry>, b: seq<Entry>)
    ensures Records(a + b) == Records(a) + Records(b)
    decreases |a|
  {
    if a == [] {
      assert a + b == b;
    } else {
      RecordsAppend(a[1..], b);
      assert (a + b)[1..] == a[1..] + b;
      assert (a + b)[0] == a[0];
    }
  }

  /** Where the fields of a record stand. */
  lemma {:induction false} RecordFields(e: Entry)
    ensures var r := Record(e);
            && |r| == HEADER + |e.data| && r[..8] == LE(e.term, 8) && r[8..16] == LE(e.index, 8) && r[16] == e.kind
            && r[17..21] == LE(|e.data|, 4) && r[HEADER..] == e.data
  {
    hide LE;
    var t, i, n := LE(e.term, 8), LE(e.index, 8), LE(|e.data|, 4);
    assert Record(e) == t + (i + [e.kind] + n + e.data);
    assert Record(e) == (t + i) + ([e.kind] + n + e.data);
    assert Record(e) == (t + i + [e.kind]) + (n + e.data);
  }

  /** A record is read back, and what follows it is left. */
  lemma {:induction false} ReadWritten(e: Entry, rest: seq<Byte>)
    requires Fits(e)
    ensures ReadRecord(Record(e) + rest) == Some((e, rest))
  {
    PowersOf256();
    LERoundTrip(e.term, 8);
    LERoundTrip(e.index, 8);
    LERoundTrip(|e.data|, 4);
    RecordFields(e);
    hide Record;
    hide LE;
    hide UnLE;
    var r := Record(e);
    var bs := r + rest;
    assert bs[..8] == r[..8] && bs[8..16] == r[8..16] && bs[17..21] == r[17..21];
    assert bs[HEADER..HEADER + |e.data|] == r[HEADER..] && bs[HEADER + |e.data|..] == rest;
  }

  /** A record that is cut short is not read at all. */
  lemma {:induction false} CutRecordIsNotRead(e: Entry, k: nat)
    requires Fits(e) && k < |Record(e)|
    ensures ReadRecord(Record(e)[..k]) == None
  {
    var bs := Record(e)[..k];
    if k >= HEADER {
      PowersOf256();
      LERoundTrip(|e.data|, 4);
      RecordFields(e);
      assert bs[17..21] == Record(e)[17..21];
    }
  }

  lemma {:induction false} NothingToRead()
    ensures ReadRecord([]) == None
  {
  }

  /** How many whole records lie in the first k bytes. */
  function WholeRecords(es: seq<Entry>, k: nat): (n: nat)
    ensures n <= |es|
  {
    if es == [] || k < |Record(es[0])| then 0 else 1 + WholeRecords(es[1..], k - |Record(es[0])|)
  }

  lemma {:induction false} PlaceNext(entries: seq<Entry>, e: Entry)
    requires e.index == |entries|
    ensures Place(entries, e) == entries + [e]
  {
  }

  // ----- replay -----

  /** Whole records are read back, and a piece that holds none is left. */
  lemma {:induction false} ReplayAll(entries: seq<Entry>, es: seq<Entry>, piece: seq<Byte>)
    requires Batch(es, |entries|) && ReadRecord(piece) == None
    ensures ReplayFrom(entries, Records(es) + piece) == entries + es && Unread(Records(es) + piece) == piece
    decreases |es|
  {
    hide Record;
    hide ReadRecord;
    hide Place;
    if es == [] {
      assert Records(es) + piece == piece;
    } else {
      BatchTail(es, |entries|);
      var e, rest := es[0], Records(es[1..]) + piece;
      assert Records(es) + piece == Record(e) + rest;
      ReadWritten(e, rest);
      PlaceNext(entries, e);
      ReplayAll(entries + [e], es[1..], piece);
      assert entries + [e] + es[1..] == entries + es;
    }
  }

  /** A file cut at byte k: the records that lie wholly before k, and a piece that holds none. */
  lemma {:induction false} CutSplits(es: seq<Entry>, first: nat, k: nat)
    requires Batch(es, first) && k <= |Records(es)|
    ensures var whole := Records(es[..WholeRecords(es, k)]);
            whole <= Records(es)[..k] && ReadRecord(Records(es)[..k][|whole|..]) == None
    decreases |es|
  {
    hide Record;
    hide ReadRecord;
    if es == [] {
      NothingToRead();
    } else {
      BatchTail(es, first);
      var e, rest := es[0], es[1..];
      var r := Record(e);
      if k < |r| {
        assert Records(es)[..k] == r[..k];
        CutRecordIsNotRead(e, k);
      } else {
        var n := WholeRecords(rest, k - |r|);
        assert Records(es)[..k] == r + Records(rest)[..k - |r|];
        assert es[..n + 1][1..] == rest[..n] && es[..n + 1][0] == e;
        CutSplits(rest, first + 1, k - |r|);
        var whole, part := Records(rest[..n]), Records(rest)[..k - |r|];
        assert Records(es[..n + 1]) == r + whole;
        assert (r + part)[|r + whole|..] == part[|whole|..];
      }
    }
  }

  lemma {:induction false} AllRecordsWhole(es: seq<Entry>)
    ensures WholeRecords(es, |Records(es)|) == |es|
  {
    if es != [] { AllRecordsWhole(es[1..]); }
  }

  /** The file holds exactly the records of the in-memory vector, and perhaps a piece of one more. */
  ghost predicate Recovers(file: seq<Byte>, entries: seq<Entry>) {
    && |entries| >= 1 && entries[0] == DUMMY && Batch(entries[1..], 1)
    && Records(entries[1..]) <= file && ReadRecord(file[|Records(entries[1..])|..]) == None
  }

  lemma {:induction false} RecoversReplays(file: seq<Byte>, entries: seq<Entry>)
    requires Recovers(file, entries)
    ensures Replay(file) == entries && file == Records(entries[1..]) + Unread(file)
  {
    hide Records;
    hide ReadRecord;
    hide ReplayFrom;
    hide Unread;
    var whole := Records(entries[1..]);
    assert file == whole + file[|whole|..];
    ReplayAll([DUMMY], entries[1..], file[|whole|..]);
    assert entries == [DUMMY] + entries[1..];
  }

  lemma {:induction false} CutRecovers(es: seq<Entry>, k: nat)
    requires Batch(es, 1) && k <= |Records(es)|
    ensures Recovers(Records(es)[..k], [DUMMY] + es[..WholeRecords(es, k)])
  {
    CutSplits(es, 1, k);
    var n := WholeRecords(es, k);
    assert ([DUMMY] + es[..n])[1..] == es[..n];
  }

  /** Crash recovery: a file cut at any byte yields exactly the entries whose records lie wholly before the cut. */
  lemma {:induction false} ReplayCut(es: seq<Entry>, k: nat)
    requires Batch(es, 1) && k <= |Records(es)|
    ensures Replay(Records(es)[..k]) == [DUMMY] + es[..WholeRecords(es, k)]
  {
    CutRecovers(es, k);
    RecoversReplays(Records(es)[..k], [DUMMY] + es[..WholeRecords(es, k)]);
  }

  /** Replaying what was written rebuilds it. */
  lemma {:induction false} ReplayRebuilds(es: seq<Entry>)
    requires Batch(es, 1)
    ensures Replay(Records(es)) == [DUMMY] + es
  {
    ReplayCut(es, |Records(es)|);
    AllRecordsWhole(es);
    assert Records(es)[..|Records(es)|] == Records(es) && es[..|es|] == es;
  }

  // ----- appending to the file -----

  /** What appendNoSync leaves in memory and in the file: a batch that starts inside the vector cuts it
      there and rewrites the file, any other is written behind what the file holds. */
  function AppendedEntries(entries: seq<Entry>, es: seq<Entry>): seq<Entry> {
    if es == [] then entries
    else if es[0].index < |entries| then entries[..es[0].index] + es
    else entries + es
  }

  function AppendedFile(file: seq<Byte>, entries: seq<Entry>, es: seq<Entry>): seq<Byte> {
    if es == [] then file
    else if es[0].index < |entries| then Records(entries[1..Max(1, es[0].index)]) + Records(es)
    else file + Records(es)
  }

  ghost predicate Continues(entries: seq<Entry>, es: seq<Entry>) {
    es != [] ==> 1 <= es[0].index <= |entries| && Batch(es, es[0].index)
  }

  /** Nothing is written behind a piece of a record. */
  predicate WritesCleanly(file: seq<Byte>, entries: seq<Entry>, es: seq<Entry>) {
    es == [] || Unread(file) == [] || es[0].index < |entries|
  }

  lemma {:induction false} AppendedSplits(entries: seq<Entry>, es: seq<Entry>)
    requires |entries| >= 1 && entries[0] == DUMMY && Batch(entries[1..], 1) && Continues(entries, es) && es != []
    ensures var after := AppendedEntries(entries, es);
            && |after| >= 1 && after[0] == DUMMY && Batch(after[1..], 1)
            && after[1..] == entries[1..es[0].index] + es
  {
    var after, kept := AppendedEntries(entries, es), entries[1..es[0].index];
    assert after == entries[..es[0].index] + es;
    assert after[1..] == kept + es;
    forall i | 0 <= i < |kept + es| ensures (kept + es)[i].index == 1 + i && Fits((kept + es)[i]) {
      if i < |kept| { assert kept[i] == entries[1..][i]; } else { assert (kept + es)[i] == es[i - |kept|]; }
    }
  }

  /** A contiguous batch, also one that overwrites a tail, leaves exactly the records of memory. */
  lemma {:induction false} CleanAppendMirrors(file: seq<Byte>, entries: seq<Entry>, es: seq<Entry>)
    requires Recovers(file, entries) && Continues(entries, es) && es != [] && WritesCleanly(file, entries, es)
    ensures var after := AppendedEntries(entries, es);
            && |after| >= 1 && after[0] == DUMMY && Batch(after[1..], 1)
            && AppendedFile(file, entries, es) == Records(after[1..])
  {
    RecoversReplays(file, entries);
    AppendedSplits(entries, es);
    hide Records;
    hide Unread;
    hide ReadRecord;
    hide Batch;
    hide AppendedEntries;
    var kept := entries[1..es[0].index];
    RecordsAppend(kept, es);
    if es[0].index == |entries| {
      assert kept == entries[1..];
      assert file == Records(kept) + [] == Records(kept);
    }
  }

  lemma {:induction false} MirrorRecovers(entries: seq<Entry>)
    requires |entries| >= 1 && entries[0] == DUMMY && Batch(entries[1..], 1)
    ensures Recovers(Records(entries[1..]), entries) && Unread(Records(entries[1..])) == []
  {
    NothingToRead();
    var whole := Records(entries[1..]);
    assert whole[|whole|..] == [] && whole + [] == whole;
    ReplayAll([DUMMY], entries[1..], []);
  }

  lemma {:induction false} CleanAppendRecovers(file: seq<Byte>, entries: seq<Entry>, es: seq<Entry>)
    requires Recovers(file, entries) && Continues(entries, es) && WritesCleanly(file, entries, es)
    ensures Recovers(AppendedFile(file, entries, es), AppendedEntries(entries, es))
    ensures es != [] ==> Unread(AppendedFile(file, entries, es)) == []
  {
    if es != [] {
      CleanAppendMirrors(file, entries, es);
      MirrorRecovers(AppendedEntries(entries, es));
    }
  }

  lemma {:induction false} FrontOfTail<T>(s: seq<T>, n: nat)
    requires |s| >= 1 && n <= |s[1..]|
    ensures [s[0]] + s[1..][..n] == s[..1 + n]
  {
  }

  /** A clean write that a crash cuts at byte k leaves a file that recovers a prefix of memory. */
  lemma {:induction false} CleanCutRecovers(file: seq<Byte>, entries: seq<Entry>, es: seq<Entry>, k: nat)
    requires Recovers(file, entries) && Continues(entries, es) && es != [] && WritesCleanly(file, entries, es)
    requires k <= |AppendedFile(file, entries, es)|
    ensures var after := AppendedEntries(entries, es);
            && |after| >= 1
            && var n := 1 + WholeRecords(after[1..], k); Recovers(AppendedFile(file, entries, es)[..k], after[..n])
  {
    CleanAppendMirrors(file, entries, es);
    var after := AppendedEntries(entries, es);
    var n := WholeRecords(after[1..], k);
    assert n <= |after[1..]|;
    hide *;
    CutRecovers(after[1..], k);
    FrontOfTail(after, n);
  }

  /** A cut leaves the first n records exactly when it leaves all their bytes. */
  lemma {:induction false} FirstRecordsWholeExactlyWhen(es: seq<Entry>, n: nat, k: nat)
    requires n <= |es|
    ensures WholeRecords(es, k) >= n <==> k >= |Records(es[..n])|
    decreases n
  {
    if n > 0 {
      assert es[..n][0] == es[0] && es[..n][1..] == es[1..][..n - 1];
      if k >= |Record(es[0])| { FirstRecordsWholeExactlyWhen(es[1..], n - 1, k - |Record(es[0])|); }
    }
  }

  /** A batch that a crash cuts at byte k: the entries in front of the batch are read back exactly when
      their records are whole, which a rewrite of the file does not give for granted. */
  lemma {:induction false} FrontSurvivesExactlyWhen(file: seq<Byte>, entries: seq<Entry>, es: seq<Entry>, k: nat)
    requires Recovers(file, entries) && Continues(entries, es) && es != [] && WritesCleanly(file, entries, es)
    requires k <= |AppendedFile(file, entries, es)|
    ensures entries[..es[0].index] <= Replay(AppendedFile(file, entries, es)[..k]) <==> k >= |Records(entries[1..es[0].index])|
  {
    hide Recovers;
    hide Records;
    hide Replay;
    hide Unread;
    hide Batch;
    hide AppendedFile;
    hide WholeRecords;
    var first, after := es[0].index, AppendedEntries(entries, es);
    var n := WholeRecords(after[1..], k);
    CleanCutRecovers(file, entries, es, k);
    RecoversReplays(AppendedFile(file, entries, es)[..k], after[..1 + n]);
    assert entries[..first] == after[..first];
    assert entries[1..first] == after[1..][..first - 1];
    hide *;
    FirstRecordsWholeExactlyWhen(after[1..], first - 1, k);
    PrefixesByLength(after, first, 1 + n);
  }

  lemma {:induction false} PrefixesByLength<T>(s: seq<T>, a: nat, b: nat)
    requires a <= |s| && b <= |s|
    ensures s[..a] <= s[..b] <==> a <= b
  {
  }

  // ----- runs of appends -----

  /** Each batch starts inside the log or right behind it. */
  ghost predicate Contiguous(entries: seq<Entry>, batches: seq<seq<Entry>>)
    decreases |batches|
  {
    batches == [] ||
    (Continues(entries, batches[0]) && Contiguous(AppendedEntries(entries, batches[0]), batches[1..]))
  }

  /** File and memory after a run of appends. */
  function AppendedAll(file: seq<Byte>, entries: seq<Entry>, batches: seq<seq<Entry>>): (seq<Byte>, seq<Entry>)
    decreases |batches|
  {
    if batches == [] then (file, entries)
    else AppendedAll(AppendedFile(file, entries, batches[0]), AppendedEntries(entries, batches[0]), batches[1..])
  }

  /** The first batch that writes anything finds no piece of a record in front of it, or rewrites the file. */
  predicate StartsCleanly(file: seq<Byte>, entries: seq<Entry>, batches: seq<seq<Entry>>)
    decreases |batches|
  {
    batches == [] ||
    (if batches[0] == [] then StartsCleanly(file, entries, batches[1..]) else WritesCleanly(file, entries, batches[0]))
  }

  lemma {:induction false} RunRecovers(file: seq<Byte>, entries: seq<Entry>, batches: seq<seq<Entry>>)
    requires Recovers(file, entries) && Contiguous(entries, batches) && StartsCleanly(file, entries, batches)
    ensures var (file', entries') := AppendedAll(file, entries, batches); Recovers(file', entries')
    decreases |batches|
  {
    hide Recovers;
    if batches != [] {
      CleanAppendRecovers(file, entries, batches[0]);
      var file1, entries1 := AppendedFile(file, entries, batches[0]), AppendedEntries(entries, batches[0]);
      if batches[0] != [] { NothingUnread(file1, entries1, batches[1..]); }
      RunRecovers(file1, entries1, batches[1..]);
    }
  }

  lemma {:induction false} NothingUnread(file: seq<Byte>, entries: seq<Entry>, batches: seq<seq<Entry>>)
    requires Unread(file) == []
    ensures StartsCleanly(file, entries, batches)
    decreases |batches|
  {
    if batches != [] && batches[0] == [] { NothingUnread(file, entries, batches[1..]); }
  }

  /** After any run of contiguous appends from an empty log, also ones that overwrite tails, replaying
      the file rebuilds exactly what is in memory. */
  lemma {:induction false} FileReplaysToMemory(batches: seq<seq<Entry>>)
    requires Contiguous([DUMMY], batches)
    ensures var (file, entries) := AppendedAll([], [DUMMY], batches); Replay(file) == entries
  {
    MirrorRecovers([DUMMY]);
    NothingUnread([], [DUMMY], batches);
    RunRecovers([], [DUMMY], batches);
    var (file, entries) := AppendedAll([], [DUMMY], batches);
    RecoversReplays(file, entries);
  }

  /** After a crash that cut a record at byte k, and any further contiguous appends of which the first
      does not write behind that piece, replaying the file still rebuilds exactly what is in memory. */
  lemma {:induction false} CutRecordRecovers(entries: seq<Entry>, e: Entry, k: nat, batches: seq<seq<Entry>>)
    requires |entries| >= 1 && entries[0] == DUMMY && Batch(entries[1..], 1) && Fits(e) && k < |Record(e)|
    requires Contiguous(entries, batches)
    requires var file := Records(entries[1..]) + Record(e)[..k];
             StartsCleanly(file, entries, batches)
    ensures var file := Records(entries[1..]) + Record(e)[..k];
            var (file', entries') := AppendedAll(file, entries, batches);
            Replay(file) == entries && Replay(file') == entries'
  {
    var whole, piece := Records(entries[1..]), Record(e)[..k];
    CutRecordIsNotRead(e, k);
    assert (whole + piece)[|whole|..] == piece;
    RecoversReplays(whole + piece, entries);
    RunRecovers(whole + piece, entries, batches);
    var (file', entries') := AppendedAll(whole + piece, entries, batches);
    RecoversReplays(file', entries');
  }

  // ----- writing behind a piece of a record -----

  /** An entry of term 1 at index 1 with one data byte. */
  function OneByteEntry(b: Byte): Entry { Entry(1, 1, 0, [b]) }

  /** Cut in front of its data, a record takes the first byte behind it for its data. */
  lemma {:induction false} CutTakesNextByte(b: Byte, x: Byte)
    ensures |Record(OneByteEntry(b))| == 22 && Record(OneByteEntry(b))[..21] + [x] == Record(OneByteEntry(x))
    ensures Record(OneByteEntry(b))[0] == 1
  {
    hide LE;
    assert LE(1, 8)[0] == 1 by { FirstByte(); }
    var header := LE(1, 8) + LE(1, 8) + [0] + LE(1, 4);
    assert Record(OneByteEntry(b)) == header + [b] && Record(OneByteEntry(x)) == header + [x];
  }

  lemma {:induction false} FirstByte()
    ensures LE(1, 8)[0] == 1
  {
  }

  /** Without its first byte the record promises far more data than follows. */
  lemma {:induction false} RestIsNotRead(b: Byte)
    requires b != 0
    ensures ReadRecord(Record(OneByteEntry(b))[1..]) == None
  {
    var r := Record(OneByteEntry(b));
    assert LE(1, 4)[1..] == LE(0, 3);
    var length := LE(0, 3) + [b];
    assert r[18..22] == length by {
      var front := LE(1, 8) + LE(1, 8) + [0];
      assert r == front + (LE(1, 4) + [b]) && |front| == 17;
      assert r[18..22] == (LE(1, 4) + [b])[1..];
    }
    assert r[1..][17..21] == r[18..22];
    UnLERoundTrip(length);
    assert LE(0, 4)[3] == 0 by { assert LE(0, 4)[1..][1..][1..] == LE(0, 1); }
    assert UnLE(length) != 0;
  }

  /** An entry with one data byte, its record cut by a crash in front of that byte, the restart, and the
      same entry appended again: memory holds the entry, and the next replay reads another one in its
      place, of the same term and index, unless the byte happens to be 1. */
  lemma {:induction false} AppendBehindPieceMisreads(b: Byte)
    requires b != 0
    ensures var e := OneByteEntry(b);
            var cut := Record(e)[..21];
            && Replay(cut) == [DUMMY] && Unread(cut) == cut
            && AppendedEntries([DUMMY], [e]) == [DUMMY] + [e]
            && Replay(AppendedFile(cut, [DUMMY], [e])) == [DUMMY] + [OneByteEntry(1)]
            && (Replay(AppendedFile(cut, [DUMMY], [e])) == AppendedEntries([DUMMY], [e]) <==> b == 1)
  {
    var e := OneByteEntry(b);
    CutTakesNextByte(b, 1);
    CutRecordIsNotRead(e, 21);
    ReplayAcross(b);
    WrittenBehind(Record(e)[..21], e);
    hide ReadRecord;
    hide Record;
    hide AppendedFile;
    assert ([DUMMY] + [e])[1].data[0] == b && ([DUMMY] + [OneByteEntry(1)])[1].data[0] == 1;
  }

  lemma {:induction false} ReplayAcross(b: Byte)
    requires b != 0
    ensures var r := Record(OneByteEntry(b)); |r| == 22 && Replay(r[..21] + r) == [DUMMY] + [OneByteEntry(1)]
  {
    var r, other := Record(OneByteEntry(b)), OneByteEntry(1);
    assert Fits(other) && other.index == 1;
    CutTakesNextByte(b, 1);
    RestIsNotRead(b);
    hide *;
    HeadTwice(r, 21);
    ReplayOne(other, r[1..]);
  }

  lemma {:induction false} HeadTwice<T>(s: seq<T>, k: nat)
    requires k < |s|
    ensures s[..k] + s == (s[..k] + [s[0]]) + s[1..]
  {
  }

  lemma {:induction false} ReplayOne(e: Entry, rest: seq<Byte>)
    requires Fits(e) && e.index == 1 && ReadRecord(rest) == None
    ensures Replay(Record(e) + rest) == [DUMMY] + [e]
  {
    OneRecord(e);
    ReplayAll([DUMMY], [e], rest);
  }

  lemma {:induction false} OneRecord(e: Entry)
    ensures Records([e]) == Record(e)
  {
    hide Record;
    assert [e][1..] == [] && Record(e) + [] == Record(e);
  }

  lemma {:induction false} WrittenBehind(file: seq<Byte>, e: Entry)
    requires e.index == 1
    ensures AppendedFile(file, [DUMMY], [e]) == file + Record(e) && AppendedEntries([DUMMY], [e]) == [DUMMY] + [e]
  {
    OneRecord(e);
  }
}
