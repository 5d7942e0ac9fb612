/** The two-layer Raft log as a value: entries already in storage, and the window of entries that
    were appended but not yet confirmed as persisted.  Storage starts at index 1 (nothing is ever
    compacted), so index i lives at position i - 1 of `stored`. */
module LogSpec {
  import opened Bytes
  import opened RaftTypes

  datatype Log = Log(stored: seq<Entry>, offset: nat, window: seq<Entry>, committed: nat, applied: nat)

  /** sizeof(Entry) on a 64-bit target, and the limit that means "no limit". */
  const ENTRY_SIZE: nat := 48
  const NO_LIMIT: nat := 0xFFFF_FFFF_FFFF_FFFF

  /** Consecutive indices from `first`, and no entry of term 0. */
  ghost predicate Numbered(es: seq<Entry>, first: nat) {
    forall i :: 0 <= i < |es| ==> es[i].index == first + i && es[i].term >= 1
  }

  ghost predicate Valid(l: Log) {
    && Numbered(l.stored, 1)
    && (l.window != [] ==> 1 <= l.offset <= |l.stored| + 1 && Numbered(l.window, l.offset))
  }

  /** The one log the two layers stand for. */
  function Logical(l: Log): (es: seq<Entry>)
    requires l.window != [] ==> 1 <= l.offset <= |l.stored| + 1
  {
    if l.window == [] then l.stored else l.stored[..l.offset - 1] + l.window
  }

  /** Wherever two logs hold the same term at the same index they are the same up to there. */
  ghost predicate LogsMatch(a: seq<Entry>, b: seq<Entry>) {
    forall i :: 0 <= i < |a| && i < |b| && a[i].term == b[i].term ==> a[..i + 1] == b[..i + 1]
  }

  // ----- queries -----

  /** Term of index i; 0 where neither layer answers.  Above the window's last index the question
      still falls through to storage, which may hold an overwritten tail. */
  function TermAt(l: Log, i: nat): nat {
    if i == 0 then 0
    else if l.window != [] && l.offset <= i < l.offset + |l.window| then l.window[i - l.offset].term
    else if i <= |l.stored| then l.stored[i - 1].term
    else 0
  }

  function LastIndex(l: Log): nat {
    if l.window != [] then l.offset + |l.window| - 1 else |l.stored|
  }

  function LastTerm(l: Log): nat { TermAt(l, LastIndex(l)) }

  /** Position of the first entry whose term the log does not confirm; |es| if there is none. */
  function ConflictPos(l: Log, es: seq<Entry>): (k: nat)
    ensures k <= |es|
  {
    if es == [] then 0
    else if TermAt(l, es[0].index) != es[0].term then 0
    else 1 + ConflictPos(l, es[1..])
  }

  function Cost(e: Entry): nat { ENTRY_SIZE + |e.data| }

  /** How many of `es` still fit after `size` bytes are taken. */
  function Fit(es: seq<Entry>, size: nat, maxSize: nat): (k: nat)
    ensures k <= |es|
  {
    if es == [] || size + Cost(es[0]) > maxSize then 0
    else 1 + Fit(es[1..], size + Cost(es[0]), maxSize)
  }

  /** The first entry always goes through, the others while they fit. */
  function Bounded(es: seq<Entry>, maxSize: nat): (r: seq<Entry>)
    ensures r <= es
  {
    if |es| <= 1 then es else es[..1 + Fit(es[1..], Cost(es[0]), maxSize)]
  }

  /** Storage reads 0 as "no limit"; a byte count never exceeds NO_LIMIT. */
  function StorageTake(es: seq<Entry>, maxSize: nat): (r: seq<Entry>)
    ensures r <= es
  {
    if maxSize == 0 || maxSize == NO_LIMIT then es else Bounded(es, maxSize)
  }

  function WindowSlice(l: Log, lo: nat, hi: nat): seq<Entry> {
    if lo < l.offset || hi > l.offset + |l.window| || lo > hi then []
    else l.window[lo - l.offset..hi - l.offset]
  }

  /** The part of [lo, hi) that storage serves. */
  function StoragePart(l: Log, lo: nat, hi: nat, maxSize: nat): seq<Entry> {
    if 1 <= lo < l.offset && lo <= hi && Min(hi, l.offset) <= |l.stored| + 1
    then StorageTake(l.stored[lo - 1..Min(hi, l.offset) - 1], maxSize)
    else []
  }

  /** The part of [lo, hi) that the window serves. */
  function WindowPart(l: Log, lo: nat, hi: nat): seq<Entry> {
    if hi > l.offset then WindowSlice(l, Max(lo, l.offset), hi) else []
  }

  /** The final cut of a slice keeps at least one entry. */
  function Cut(es: seq<Entry>, maxSize: nat): (r: seq<Entry>)
    ensures r <= es
  {
    if maxSize == NO_LIMIT then es else Bounded(es, maxSize)
  }

  /** Entries [lo, hi) bounded by maxSize; None where the source throws. */
  function Slice(l: Log, lo: nat, hi: nat, maxSize: nat): Option<seq<Entry>> {
    if lo >= hi then Some([])
    else if lo < 1 || hi > LastIndex(l) + 1 then None
    else if lo < l.offset && Min(hi, l.offset) > |l.stored| + 1 then None
    else
      var fromStorage := StoragePart(l, lo, hi, maxSize);
      if lo < l.offset && |fromStorage| < Min(hi, l.offset) - lo then Some(fromStorage)
      else Some(Cut(fromStorage + WindowPart(l, lo, hi), maxSize))
  }

  function NextCommitted(l: Log): seq<Entry> {
    if l.committed <= l.applied then []
    else match Slice(l, l.applied + 1, l.committed + 1, NO_LIMIT)
         case None => []
         case Some(es) => es
  }

  // ----- updates -----

  /** Drop the window's entries from index `from` on; `offset` is left as it is. */
  function TruncateFrom(l: Log, from: nat): Log {
    if l.window == [] then l
    else if from < l.offset then l.(window := [])
    else if from - l.offset < |l.window| then l.(window := l.window[..from - l.offset])
    else l
  }

  function TruncateAndAppend(l: Log, es: seq<Entry>): Log {
    if es == [] then l
    else
      var first := es[0].index;
      if l.window == [] || first <= l.offset || first > l.offset + |l.window| then
        l.(offset := first, window := es)
      else
        l.(window := l.window[..first - l.offset] + es)
  }

  /** The index in front of i, in 64 bits. */
  function Preceding(i: nat): nat { if i == 0 then U64 - 1 else i - 1 }

  /** The leader's own append. */
  function Append(l: Log, es: seq<Entry>): Log {
    if es == [] || Preceding(es[0].index) < l.committed then l else TruncateAndAppend(l, es)
  }

  /** What an accepted append does to the entries: without a conflict the window loses what lies
      beyond the message; a conflict at or below the commit index changes nothing; any other
      conflict is overwritten from there on. */
  function Reconcile(l: Log, prev: nat, es: seq<Entry>): Log {
    var k := ConflictPos(l, es);
    if k == |es| then (if prev + |es| < LastIndex(l) then TruncateFrom(l, prev + |es| + 1) else l)
    else if es[k].index <= l.committed then l
    else TruncateAndAppend(l, es[k..])
  }

  /** The follower's append, and whether it was accepted. */
  function MaybeAppend(l: Log, prev: nat, prevTerm: nat, leaderCommit: nat, es: seq<Entry>): (Log, bool) {
    if TermAt(l, prev) != prevTerm then (l, false)
    else
      var l' := Reconcile(l, prev, es);
      (if leaderCommit > l.committed then l'.(committed := Min(leaderCommit, prev + |es|)) else l', true)
  }

  function CommitTo(l: Log, index: nat): Log {
    if index > l.committed then l.(committed := Min(index, LastIndex(l))) else l
  }

  function AppliedTo(l: Log, i: nat): Log {
    if i < l.applied || i > l.committed then l else l.(applied := i)
  }

  /** The application confirms that everything up to index i is persisted. */
  function StableTo(l: Log, i: nat): Log {
    if l.window == [] || i < l.offset then l
    else l.(window := if i + 1 - l.offset >= |l.window| then [] else l.window[i + 1 - l.offset..], offset := i + 1)
  }

  /** The write-ahead log takes a batch: an overlap drops storage from the batch's first index. */
  function Persist(l: Log, es: seq<Entry>): Log {
    if es == [] then l
    else if es[0].index == 0 then l.(stored := es[1..])
    else if es[0].index <= |l.stored| then l.(stored := l.stored[..es[0].index - 1] + es)
    else l.(stored := l.stored + es)
  }

  // ----- both layers answer as one log -----

  /** Within 1..lastIndex, term and length are those of the logical log. */
  lemma TermRefines(l: Log, i: nat)
    requires Valid(l) && 1 <= i <= LastIndex(l)
    ensures LastIndex(l) == |Logical(l)| && Numbered(Logical(l), 1)
    ensures TermAt(l, i) == Logical(l)[i - 1].term
  {
  }
}
