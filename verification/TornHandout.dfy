/** Where handing out in turn ends: a crash cuts a record, the next append writes behind the piece, and
    the following restart reads a record of a high index, with nothing but blank entries in front of it.
    A blank entry carries no index, so once it is committed it is handed out again in every cycle. */
module TornHandout {
  import opened Bytes
  import opened RaftTypes
  import opened LogSpec
  import opened WalSpec
  import opened NodeSpec
  import opened Cluster
  import opened Votes
  import opened RaftSafety
  import opened Schedules
  import opened FirstEntry
  import opened Episodes
  import opened StaleCommit

  // ----- what replaying a file yields -----

  /** Whatever the bytes, every slot of the replayed vector holds an entry of its own index or is blank. */
  lemma {:induction false} ReplayFillsSlots(entries: seq<Entry>, bs: seq<Byte>, i: nat)
    requires forall k :: 0 <= k < |entries| ==> entries[k].index == k || entries[k] == DUMMY
    requires i < |ReplayFrom(entries, bs)|
    ensures ReplayFrom(entries, bs)[i].index == i || ReplayFrom(entries, bs)[i] == DUMMY
    decreases |bs|
  {
    hide ReadRecord;
    match ReadRecord(bs)
    case None =>
    case Some((e, rest)) =>
      assert |rest| < |bs| by { ReadingConsumes(bs); }
      ReplayFillsSlots(Place(entries, e), rest, i);
  }

  lemma {:induction false} ReadingConsumes(bs: seq<Byte>)
    ensures ReadRecord(bs).Some? ==> |ReadRecord(bs).value.1| < |bs|
  {
  }

  /** So a host that starts again reads a numbered log exactly when no slot is blank and no term is 0. */
  lemma {:induction false} ReadableExactlyWhen(bs: seq<Byte>)
    ensures Numbered(Replay(bs)[1..], 1) <==> forall i :: 1 <= i < |Replay(bs)| ==> Replay(bs)[i] != DUMMY && Replay(bs)[i].term >= 1
  {
    var r := Replay(bs);
    forall i | 1 <= i < |r| ensures r[i].index == i || r[i] == DUMMY { ReplayFillsSlots([DUMMY], bs, i); }
    hide Replay;
    if Numbered(r[1..], 1) {
      forall i | 1 <= i < |r| ensures r[i] != DUMMY && r[i].term >= 1 { assert r[i] == r[1..][i - 1]; }
    }
  }

  // ----- the file of node 1 -----

  lemma {:induction false} SmallNumber(v: nat)
    requires v < 256
    ensures LE(v, 8) == [v, 0, 0, 0, 0, 0, 0, 0] && LE(v, 7) == [v, 0, 0, 0, 0, 0, 0] && LE(v, 4) == [v, 0, 0, 0]
  {
    assert LE(0, 1) == [0];
    assert LE(0, 2) == [0] + LE(0, 1) == [0, 0];
    assert LE(0, 3) == [0] + LE(0, 2) == [0, 0, 0];
    assert LE(0, 4) == [0] + LE(0, 3) == [0, 0, 0, 0];
    assert LE(0, 5) == [0] + LE(0, 4) == [0, 0, 0, 0, 0];
    assert LE(0, 6) == [0] + LE(0, 5) == [0, 0, 0, 0, 0, 0];
    assert LE(0, 7) == [0] + LE(0, 6) == [0, 0, 0, 0, 0, 0, 0];
    assert v / 256 == 0 && v % 256 == v;
  }

  lemma {:induction false} RecordSize(t: nat, b: Byte)
    ensures |Record(First(t, b))| == 22
  {
    hide LE;
  }

  /** The front of the record, up to the first and the fifth byte of the index. */
  lemma {:induction false} RecordFront(t: nat, b: Byte)
    requires t < 256
    ensures |Record(First(t, b))| == 22 && Record(First(t, b))[..9] == [t, 0, 0, 0, 0, 0, 0, 0, 1]
    ensures Record(First(t, b))[..13] == [t, 0, 0, 0, 0, 0, 0, 0, 1, 0, 0, 0, 0]
  {
    SmallNumber(t);
    SmallNumber(1);
    hide LE;
    var front, rest := LE(t, 8) + LE(1, 8), [0] + LE(1, 4) + [b];
    assert Record(First(t, b)) == front + rest;
    hide Record;
    assert front[..9] == [t, 0, 0, 0, 0, 0, 0, 0, 1] && front[..13] == [t, 0, 0, 0, 0, 0, 0, 0, 1, 0, 0, 0, 0];
    assert (front + rest)[..9] == front[..9] && (front + rest)[..13] == front[..13];
  }

  /** The entry that the restart reads. */
  const STRAY := Entry(1, 513, 0, [0])

  lemma {:induction false} Regrouped<T>(a: seq<T>, x: seq<T>, t: seq<T>, z: seq<T>, l: seq<T>, w: seq<T>)
    ensures a + (x + t) + z + l + w == (a + x) + (t + (z + l + w))
  {
  }

  lemma {:induction false} FrontLiteral()
    ensures [1, 0, 0, 0, 0, 0, 0, 0] + [1] == [1, 0, 0, 0, 0, 0, 0, 0, 1]
  {
  }

  lemma {:induction false} RestLiteral()
    ensures [2, 0, 0, 0, 0, 0, 0] + ([0] + [1, 0, 0, 0] + [0]) == [2, 0, 0, 0, 0, 0, 0, 0, 1, 0, 0, 0, 0]
  {
  }

  lemma {:induction false} LowByteFirst(v: nat, n: nat)
    requires n > 0
    ensures LE(v, n) == [v % 256] + LE(v / 256, n - 1)
  {
  }

  lemma {:induction false} Number513()
    ensures LE(513, 8) == [1] + LE(2, 7)
  {
    hide LE;
    LowByteFirst(513, 8);
  }

  lemma {:induction false} StrayBytes()
    ensures Record(STRAY) == [1, 0, 0, 0, 0, 0, 0, 0, 1] + [2, 0, 0, 0, 0, 0, 0, 0, 1, 0, 0, 0, 0]
  {
    hide LE;
    SmallNumber(1);
    SmallNumber(2);
    Number513();
    FrontLiteral();
    RestLiteral();
    Regrouped(LE(1, 8), [1], LE(2, 7), [0], LE(1, 4), [0]);
  }

  /** Nine bytes of the first record and the second one behind them read as one record of index 513. */
  lemma {:induction false} StrayIsRead(b: Byte)
    ensures var piece := Record(First(1, b))[..9];
            piece + Record(First(2, b)) == Record(STRAY) + Record(First(2, b))[13..]
  {
    RecordFront(1, b);
    RecordFront(2, b);
    StrayBytes();
    hide Record;
    var piece, r := Record(First(1, b))[..9], Record(First(2, b));
    assert Record(STRAY) == piece + r[..13];
    hide *;
    assert r == r[..13] + r[13..];
    Associative(piece, r[..13], r[13..]);
  }

  /** The stored log of node 1 then: blank up to index 512. */
  function Misread(): (es: seq<Entry>)
    ensures |es| == 513 && es[0] == DUMMY && es[512] == STRAY
  {
    seq(512, _ => DUMMY) + [STRAY]
  }

  lemma {:induction false} FileReadsStray(b: Byte)
    ensures var piece := Record(First(1, b))[..9];
            && Replay(piece)[1..] == [] && Replay(AppendedFile(piece, [DUMMY], [First(2, b)]))[1..] == Misread()
  {
    RecordSize(1, b);
    RecordSize(2, b);
    var piece, r := Record(First(1, b))[..9], Record(First(2, b));
    assert Fits(First(1, b)) && Fits(STRAY);
    CutRecordIsNotRead(First(1, b), 9);
    WrittenBehind(piece, First(2, b));
    StrayIsRead(b);
    ReadWritten(STRAY, r[13..]);
    assert ReadRecord(r[13..]) == None;
    hide Record;
    hide AppendedFile;
    hide ReadRecord;
    assert ReplayFrom([DUMMY], Record(STRAY) + r[13..]) == ReplayFrom(Place([DUMMY], STRAY), r[13..]) == Place([DUMMY], STRAY);
    assert Place([DUMMY], STRAY) == [DUMMY] + Misread();
    assert ([DUMMY] + Misread())[1..] == Misread();
  }

  // ----- node 1 -----

  /** The write of the first entry is cut behind nine bytes, and the host starts again. */
  lemma {:induction false} PieceIsLeft(cfg: Config, h: Host, b: Byte)
    requires h.phase.Idle? && h.node.id == 1 && h.node.cfg == cfg && h.node.log == Log([], 1, [First(1, b)], 0, 0)
    requires h.disk.term == 1 && h.disk.file == []
    ensures var h1 := HostAfter(h, Poll(1));
            var h2 := HostAfter(h1, CrashWhileSaving(1, 9));
            && h1.phase.Polled? && CutsTheWrite(h1, h1.phase.rd.entries, 9)
            && Blank(cfg, 1, h2) && h2.node.term == 1 && h2.disk.file == Record(First(1, b))[..9]
  {
    FileReadsStray(b);
    RecordSize(1, b);
    CutLog(1, h, 9);
    WrittenBehind([], First(1, b));
    assert Vector(h.node.log) == [DUMMY];
    assert [] + Record(First(1, b)) == Record(First(1, b));
    hide HostAfter;
    hide Record;
    hide Replay;
    hide AppendedFile;
  }

  lemma {:induction false} CrashedNode(x: NodeId, h: Host)
    requires h.phase.Idle?
    ensures var h', file := CrashedAfterWrite(x, h), AppendedFile(h.disk.file, Vector(h.node.log), h.node.log.window);
            h'.phase.Idle? && h'.node == Boot(h.node.id, h.node.cfg, h.disk.term, h.disk.vote, Replay(file)[1..])
  {
    hide Replay;
    hide AppendedFile;
    hide Persist;
    hide NextCommitted;
  }

  /** Elected again, it writes its entry behind them, and the next start finds 512 blank entries. */
  lemma {:induction false} StartsMisread(cfg: Config, h: Host, b: Byte)
    requires h.phase.Idle? && h.node.id == 1 && h.node.cfg == cfg && h.node.log == Log([], 1, [First(2, b)], 0, 0)
    requires h.disk.term == 2 && h.disk.file == Record(First(1, b))[..9]
    ensures var h' := CrashedAfterWrite(1, h); h'.phase.Idle? && h'.node == Boot(1, cfg, 2, h.disk.vote, Misread())
  {
    hide CrashedAfterWrite;
    hide Record;
    hide Replay;
    hide AppendedFile;
    hide Misread;
    FileReadsStray(b);
    CrashedNode(1, h);
    assert Vector(h.node.log) == [DUMMY];
  }

  /** Its request to node 3 in term 3. */
  const CALL := Message(MsgVote, 3, 1, 3, logTerm := 1, index := 513)

  function Calling(cfg: Config): Node { Node(1, cfg, 3, 1, Candidate, 0, [1], Log(Misread(), 0, [], 0, 0), map[], {}, 0, 0) }

  lemma {:induction false} MisreadCalls(cfg: Config, h: Host)
    requires cfg.voters == [1, 2, 3] && h.phase.Idle? && h.node == Boot(1, cfg, 2, h.node.vote, Misread())
    ensures var h' := HostAfter(h, TimerFires(1)); AtRest(h') && CALL in h'.node.msgs && Rested(h').node == Calling(cfg)
  {
    var c := BecomeCandidate(h.node);
    assert VoteRequest(c, 3) == CALL;
    assert 3 in cfg.voters by { assert cfg.voters[2] == 3; }
    assert VoteRequest(c, 3) in VoteRequests(c, c.cfg.voters);
  }

  /** The log of node 1 in office, with `n` of its entries committed. */
  function InCharge(n: nat): Log { Log(Misread(), 514, [Entry(3, 514, 0, [])], n, 0) }

  lemma {:induction false} MisreadLeads(cfg: Config, h: Host)
    requires cfg.voters == [1, 2, 3] && h.phase.Idle? && h.node == Calling(cfg)
    ensures var h' := HostAfter(h, Deliver(1, GrantMsg(3, 1, 3)));
            && h'.phase.Idle? && h'.node.log == InCharge(0) && h'.node.term == 3 && h'.node.id == 1
            && h'.node.readyLast == 0 && h'.node.readyApplied == 0
  {
    hide Sends;
    var counted := h.node.(votes := [1] + [3]);
    assert Step(h.node, GrantMsg(3, 1, 3)) == BecomeLeader(counted);
    assert LastIndex(counted.log) == 513;
    hide Misread;
    assert InOffice(counted).log == InCharge(0);
  }

  // ----- what the blank entry does -----

  lemma {:induction false} BlankIsNext(l: Log)
    requires l.stored != [] && l.stored[0] == DUMMY && l.offset >= 2 && l.committed == 1 && l.applied == 0 && LastIndex(l) >= 1
    ensures NextCommitted(l) == [DUMMY]
  {
    assert StoragePart(l, 1, 2, NO_LIMIT) == [DUMMY] && WindowPart(l, 1, 2) == [];
    assert [DUMMY] + [] == [DUMMY];
  }

  lemma {:induction false} CommitArrives(h: Host)
    requires h.phase.Idle? && h.node.log == InCharge(0) && h.node.term == 3 && h.node.id == 1
    requires h.node.readyLast == 0 && h.node.readyApplied == 0
    ensures var h' := HostAfter(h, Deliver(1, Beat(2, 1, 4)));
            && h'.phase.Idle? && h'.node.log == InCharge(1) && h'.node.readyLast == 0 && h'.node.readyApplied == 0
  {
    hide Misread;
    var n := BecomeFollower(h.node, 4, 0);
    assert Step(h.node, Beat(2, 1, 4)) == StepFollower(n, Beat(2, 1, 4));
    assert LastIndex(n.log) == 514 && CommitTo(n.log, 1) == InCharge(1);
  }

  lemma {:induction false} BlankIsHandedOut(h: Host)
    requires h.phase.Idle? && h.node.log == InCharge(1) && h.node.readyLast == 0 && h.node.readyApplied == 0
    ensures var h1 := HostAfter(h, Poll(1));
            && h1.phase.Polled? && h1.phase.rd.committed == [DUMMY] && h1.phase.rd.entries == [Entry(3, 514, 0, [])]
            && h1.node.log == InCharge(1) && h1.node.readyLast == 514 && h1.node.readyApplied == 0
  {
    BlankIsNext(h.node.log);
    hide NextCommitted;
    hide Misread;
  }

  /** The cycle ends, and applies nothing. */
  lemma {:induction false} NothingIsApplied(h1: Host)
    requires h1.phase.Polled? && h1.phase.rd.entries == [Entry(3, 514, 0, [])]
    requires h1.node.log == InCharge(1) && h1.node.readyLast == 514 && h1.node.readyApplied == 0
    ensures var h2 := HostAfter(h1, SaveEntries(1));
            var h3 := HostAfter(h2, SaveHardState(1));
            var h4 := HostAfter(h3, Finish(1));
            && h2.phase.Saved? && h3.phase.Synced? && h4.phase.Idle?
            && h4.node.log == Log(Misread() + [Entry(3, 514, 0, [])], 515, [], 1, 0)
  {
    hide FileAfter;
    hide Misread;
    var e := Entry(3, 514, 0, []);
    var l := Persist(InCharge(1), [e]);
    assert l == Log(Misread() + [e], 514, [e], 1, 0);
    assert StableTo(l, 514) == Log(Misread() + [e], 515, [], 1, 0);
    hide Persist;
    hide StableTo;
  }

  lemma {:induction false} HandedOutAgain(h4: Host)
    requires h4.phase.Idle? && h4.node.log == Log(Misread() + [Entry(3, 514, 0, [])], 515, [], 1, 0)
    ensures var h5 := HostAfter(h4, Poll(1)); h5.phase.Polled? && h5.phase.rd.committed == [DUMMY]
  {
    assert (Misread() + [Entry(3, 514, 0, [])])[0] == DUMMY;
    hide Misread;
    BlankIsNext(h4.node.log);
    hide NextCommitted;
  }

  // ----- the run -----

  lemma {:induction false} Loosen(cfg: Config, c: State)
    requires Reached(cfg, c, Cleanly)
    ensures Reached(cfg, c, Intactly)
  {
    hide CleanRun;
    hide IntactRun;
    var run :| EndsIn(cfg, run, c, Cleanly);
    CleanIsIntact(cfg, run);
    assert EndsIn(cfg, run, c, Intactly);
  }

  /** Node 1 leads term 1, and its write is cut. */
  lemma {:induction false} LeftWithPiece(cfg: Config, b: Byte) returns (c: State)
    requires Three(cfg)
    ensures Reached(cfg, c, Intactly) && c.hosts.Keys == {1, 2, 3} && Blank(cfg, 1, c.hosts[1]) && c.hosts[1].node.term == 1
    ensures c.hosts[1].disk.file == Record(First(1, b))[..9]
    ensures c.hosts[2] == FreshHost(2, cfg) && c.hosts[3] == Following(cfg, 3, 1, 1, [])
  {
    hide HostAfter;
    hide Reached;
    hide FreshHost;
    hide Following;
    hide Record;
    hide CutsTheWrite;
    c := FirstLeader(cfg, b);
    Loosen(cfg, c);
    var h := c.hosts[1];
    PieceIsLeft(cfg, h, b);
    var h1 := HostAfter(h, Poll(1));
    assert h.phase.Idle?;
    hide LeadsFirst;
    hide First;
    hide Blank;
    Unchanged(c, 1);
    Acts(cfg, c, 1, h, Poll(1), Intactly);
    Acts(cfg, c, 1, h1, CrashWhileSaving(1, 9), Intactly);
    c := c.(hosts := c.hosts[1 := HostAfter(h1, CrashWhileSaving(1, 9))]);
  }

  /** It leads term 2 as well. */
  lemma {:induction false} LeadsAgain(cfg: Config, b: Byte) returns (c: State)
    requires Three(cfg)
    ensures Reached(cfg, c, Intactly) && c.hosts.Keys == {1, 2, 3} && LeadsFirst(cfg, 1, 3, 2, b, c.hosts[1])
    ensures c.hosts[1].disk.term == 2 && c.hosts[1].disk.file == Record(First(1, b))[..9]
    ensures c.hosts[2] == FreshHost(2, cfg) && c.hosts[3] == Following(cfg, 3, 1, 2, [])
  {
    hide Reached;
    hide FreshHost;
    hide Blank;
    hide Answered;
    hide Following;
    hide Stands;
    hide LeadsFirst;
    hide Record;
    hide First;
    c := LeftWithPiece(cfg, b);
    var h := Asks(cfg, c, 1, 3, Intactly);
    c := State(c.hosts[1 := h], c.net + {Ask(1, 3, 2)});
    FollowingIsBlank(cfg, 3, 1, 1, []);
    Answers(cfg, c, 3, Ask(1, 3, 2), Intactly);
    c := State(c.hosts[3 := Answered(cfg, 3, 1, 2, [])], c.net + {GrantMsg(3, 1, 2)});
    assert c.hosts[3].disk.file == [] by { AnsweredIsBlank(cfg, 3, 1, 2, []); }
    c := OpensTerm(cfg, c, 1, 3, 2, b, Intactly);
  }

  /** It writes its entry behind the piece, crashes, and stands in term 3. */
  lemma {:induction false} CallsMisread(cfg: Config, b: Byte) returns (c: State)
    requires Three(cfg)
    ensures Reached(cfg, c, Intactly) && c.hosts.Keys == {1, 2, 3} && CALL in c.net
    ensures c.hosts[1].phase.Idle? && c.hosts[1].node == Calling(cfg)
    ensures c.hosts[2] == FreshHost(2, cfg) && c.hosts[3] == Following(cfg, 3, 1, 2, [])
  {
    hide HostAfter;
    hide Reached;
    hide FreshHost;
    hide Following;
    hide Record;
    hide First;
    hide AtRest;
    hide Misread;
    hide CrashedAfterWrite;
    c := LeadsAgain(cfg, b);
    var h := c.hosts[1];
    StartsMisread(cfg, h, b);
    hide LeadsFirst;
    Unchanged(c, 1);
    WritesAndCrashes(cfg, c, 1, h, Intactly);
    var h1 := CrashedAfterWrite(1, h);
    MisreadCalls(cfg, h1);
    hide Calling;
    Acts(cfg, c, 1, h1, TimerFires(1), Intactly);
    var h2 := HostAfter(h1, TimerFires(1));
    var c1 := c.(hosts := c.hosts[1 := h2]);
    Speaks(cfg, c1, 1, CALL, Intactly);
    c := State(c1.hosts[1 := Rested(h2)], c1.net + {CALL});
  }

  /** Node 3 elects it. */
  lemma {:induction false} MisreadInCharge(cfg: Config, b: Byte) returns (c: State)
    requires Three(cfg)
    ensures Reached(cfg, c, Intactly) && c.hosts.Keys == {1, 2, 3} && c.hosts[1].phase.Idle?
    ensures var n := c.hosts[1].node; n.log == InCharge(0) && n.term == 3 && n.id == 1 && n.readyLast == 0 && n.readyApplied == 0
    ensures c.hosts[2] == FreshHost(2, cfg) && c.hosts[3] == Answered(cfg, 3, 1, 3, [])
  {
    hide HostAfter;
    hide Reached;
    hide FreshHost;
    hide Following;
    hide Blank;
    hide Answered;
    hide Calling;
    hide InCharge;
    c := CallsMisread(cfg, b);
    FollowingIsBlank(cfg, 3, 1, 2, []);
    Answers(cfg, c, 3, CALL, Intactly);
    c := State(c.hosts[3 := Answered(cfg, 3, 1, 3, [])], c.net + {GrantMsg(3, 1, 3)});
    var h := c.hosts[1];
    MisreadLeads(cfg, h);
    Unchanged(c, 1);
    Acts(cfg, c, 1, h, Deliver(1, GrantMsg(3, 1, 3)), Intactly);
    c := c.(hosts := c.hosts[1 := HostAfter(h, Deliver(1, GrantMsg(3, 1, 3)))]);
  }

  /** A node without a log times out n times. */
  lemma {:induction false} TimesOut(cfg: Config, c: State, x: NodeId, y: NodeId, n: nat, care: Care) returns (h: Host)
    requires Quorum(cfg) > 1 && y in cfg.voters && x != y && Reached(cfg, c, care) && x in c.hosts && Blank(cfg, x, c.hosts[x])
    ensures Reached(cfg, c.(hosts := c.hosts[x := h]), care)
    ensures Blank(cfg, x, h) && h.node.term == c.hosts[x].node.term + n && h.disk.file == c.hosts[x].disk.file
  {
    hide Reached;
    hide HostAfter;
    if n == 0 {
      h := c.hosts[x];
      Unchanged(c, x);
    } else {
      var h1 := TimesOut(cfg, c, x, y, n - 1, care);
      CandidateAsks(cfg, x, y, h1);
      assert h1.phase.Idle?;
      h := HostAfter(h1, TimerFires(x));
      StandsIsBlank(cfg, x, h1.node.term + 1, h);
      hide Blank;
      hide Stands;
      Acts(cfg, c, x, h1, TimerFires(x), care);
    }
  }

  /** Node 2 leads term 4 and commits its first entry with node 3. */
  lemma {:induction false} CommittedElsewhere(cfg: Config, b: Byte) returns (c: State)
    requires Three(cfg)
    ensures Reached(cfg, c, Intactly) && c.hosts.Keys == {1, 2, 3} && c.hosts[1].phase.Idle?
    ensures var n := c.hosts[1].node; n.log == InCharge(0) && n.term == 3 && n.id == 1 && n.readyLast == 0 && n.readyApplied == 0
    ensures CommittedFirst(cfg, 2, 4, b, c.hosts[2]) && 1 in c.hosts[2].node.pr
  {
    hide Reached;
    hide FreshHost;
    hide Blank;
    hide Answered;
    hide Following;
    hide Stands;
    hide InCharge;
    hide Settled;
    hide Leading;
    hide CommittedFirst;
    c := MisreadInCharge(cfg, b);
    FreshIsBlank(2, cfg);
    assert c.hosts[2].disk.file == [];
    var h := TimesOut(cfg, c, 2, 3, 3, Intactly);
    c := c.(hosts := c.hosts[2 := h]);
    h := Asks(cfg, c, 2, 3, Intactly);
    c := State(c.hosts[2 := h], c.net + {Ask(2, 3, 4)});
    AnsweredIsBlank(cfg, 3, 1, 3, []);
    Answers(cfg, c, 3, Ask(2, 3, 4), Intactly);
    c := State(c.hosts[3 := Answered(cfg, 3, 2, 4, [])], c.net + {GrantMsg(3, 2, 4)});
    assert c.hosts[3].disk.file == [] by { AnsweredIsBlank(cfg, 3, 2, 4, []); }
    c := OpensTerm(cfg, c, 2, 3, 4, b, Intactly);
    assert Elements(cfg.voters) == {2, 3, 1};
    FirstIsSettled(cfg, 2, 3, 1, 4, b, c.hosts[2]);
    assert Carry(2, 3, 4, b) in c.hosts[2].node.msgs;
    hide LeadsFirst;
    c := FirstIsCommitted(cfg, c, 2, 3, 1, 4, b, Intactly);
  }

  /** Its heartbeat reaches node 1, which hands out a blank entry. */
  lemma {:induction false} BlankAtWork(cfg: Config, b: Byte) returns (c: State)
    requires Three(cfg)
    ensures Reached(cfg, c, Intactly) && 1 in c.hosts
    ensures var h := c.hosts[1];
            && h.phase.Polled? && h.phase.rd.committed == [DUMMY] && h.phase.rd.entries == [Entry(3, 514, 0, [])]
            && h.node.log == InCharge(1) && h.node.readyLast == 514 && h.node.readyApplied == 0
  {
    hide HostAfter;
    hide Reached;
    hide CommittedFirst;
    hide InCharge;
    c := CommittedElsewhere(cfg, b);
    var h := c.hosts[1];
    var lead := BeatIsSent(cfg, c, 2, 1, 4, b, Intactly);
    c := State(c.hosts[2 := lead], c.net + {Beat(2, 1, 4)});
    CommitArrives(h);
    var h1 := HostAfter(h, Deliver(1, Beat(2, 1, 4)));
    BlankIsHandedOut(h1);
    Unchanged(c, 1);
    Acts(cfg, c, 1, h, Deliver(1, Beat(2, 1, 4)), Intactly);
    Acts(cfg, c, 1, h1, Poll(1), Intactly);
    c := c.(hosts := c.hosts[1 := HostAfter(h1, Poll(1))]);
  }

  /** One action more. */
  lemma {:induction false} OneMore(cfg: Config, run: seq<State>, a: Action) returns (run': seq<State>)
    requires IntactRun(cfg, run) && Enabled(run[|run| - 1], a) && !a.CrashWhileSavingHard?
    ensures run' == run + [Perform(run[|run| - 1], a)] && IntactRun(cfg, run')
  {
    hide Perform;
    hide Init;
    var c, c' := run[|run| - 1], Perform(run[|run| - 1], a);
    assert IntactNext(c, c') by { assert Intact(c, a); }
    hide IntactNext;
    hide Enabled;
    Longer(run, c');
    run' := run + [c'];
    forall k | 0 <= k < |run'| - 1 ensures IntactNext(run'[k], run'[k + 1]) {
      if k < |run| - 1 { assert run'[k] == run[k] && run'[k + 1] == run[k + 1]; }
    }
  }

  ghost predicate Does(c: State, a: Action, c': State) { Enabled(c, a) && c' == Perform(c, a) }

  /** A run without a lost vote at whose end node 1 hands out a blank entry, ends its Ready cycle, and
      hands out the same entry again. */
  lemma {:induction false} HandsOutTwice(cfg: Config, b: Byte) returns (run: seq<State>)
    requires cfg.voters == [1, 2, 3] && cfg.maxInflight >= 1
    ensures IntactRun(cfg, run) && |run| >= 5
    ensures var k := |run| - 5;
            && HandsOut(run[k], 1, DUMMY) && HandsOut(run[k + 4], 1, DUMMY)
            && Does(run[k], SaveEntries(1), run[k + 1]) && Does(run[k + 1], SaveHardState(1), run[k + 2])
            && Does(run[k + 2], Finish(1), run[k + 3]) && Does(run[k + 3], Poll(1), run[k + 4])
  {
    hide HostAfter;
    hide IntactRun;
    hide InCharge;
    hide Misread;
    var c := BlankAtWork(cfg, b);
    var h := c.hosts[1];
    NothingIsApplied(h);
    var h4 := HostAfter(HostAfter(HostAfter(h, SaveEntries(1)), SaveHardState(1)), Finish(1));
    HandedOutAgain(h4);
    run :| EndsIn(cfg, run, c, Intactly);
    run := OneMore(cfg, run, SaveEntries(1));
    run := OneMore(cfg, run, SaveHardState(1));
    run := OneMore(cfg, run, Finish(1));
    run := OneMore(cfg, run, Poll(1));
  }
}
