/** Where Log Matching ends: a crash cuts a record, the piece stays in the log file, and the next
    append writes behind it.  The following restart reads another entry than the one written, of the
    same term and index, while the leader still holds the right one. */
module TornWrite {
  import opened Bytes
  import opened RaftTypes
  import opened LogSpec
  import opened WalSpec
  import opened NodeSpec
  import opened Cluster
  import opened Votes
  import opened Schedules
  import opened FirstEntry

  /** The record of the entry without its data byte. */
  function Piece(b: Byte): seq<Byte> { Record(OneByteEntry(b))[..21] }

  // ----- what the file of node 2 goes through -----

  lemma {:induction false} PieceIsNotRead(b: Byte)
    ensures |Record(OneByteEntry(b))| == 22 && Replay(Piece(b))[1..] == []
  {
    CutTakesNextByte(b, 1);
    CutRecordIsNotRead(OneByteEntry(b), 21);
    hide Record;
    hide ReadRecord;
  }

  lemma {:induction false} PieceOfRecord(b: Byte)
    ensures var full := AppendedFile([], [DUMMY], [OneByteEntry(b)]);
            |full| == 22 && full[..21] == Piece(b) && Replay(full[..21])[1..] == []
  {
    PieceIsNotRead(b);
    WrittenBehind([], OneByteEntry(b));
    hide Record;
    hide Replay;
    hide AppendedFile;
    assert [] + Record(OneByteEntry(b)) == Record(OneByteEntry(b));
  }

  lemma {:induction false} FileMisreads(b: Byte)
    requires b != 0
    ensures Replay(AppendedFile(Piece(b), [DUMMY], [OneByteEntry(b)]))[1..] == [OneByteEntry(1)]
  {
    AppendBehindPieceMisreads(b);
    assert Piece(b) == Record(OneByteEntry(b))[..21];
    hide *;
    assert ([DUMMY] + [OneByteEntry(1)])[1..] == [OneByteEntry(1)];
  }

  // ----- node 2 -----

  lemma {:induction false} FollowerTakes(cfg: Config, h: Host, b: Byte)
    requires Blank(cfg, 2, h) && h.node.role == Follower && h.node.term == 1
    ensures var h' := HostAfter(h, Deliver(2, Carry(1, 2, 1, b)));
            && h'.phase.Idle? && h'.disk == h.disk && h'.node.id == 2 && h'.node.cfg == cfg
            && h'.node.log == Log([], 1, [OneByteEntry(b)], 0, 0)
  {
    var e := OneByteEntry(b);
    assert First(1, b) == e && ConflictPos(EMPTY, [e]) == 0;
    assert [e][0..] == [e];
  }

  /** The write is cut in front of the data byte, and the host starts again. */
  lemma {:induction false} CrashLeavesPiece(cfg: Config, h: Host, b: Byte)
    requires h.phase.Idle? && h.disk == Disk(1, 1, []) && h.node.id == 2 && h.node.cfg == cfg
    requires h.node.log == Log([], 1, [OneByteEntry(b)], 0, 0)
    ensures var h1 := HostAfter(h, Poll(2));
            && h1.phase.Polled? && CutsTheWrite(h1, h1.phase.rd.entries, 21)
            && HostAfter(h1, CrashWhileSaving(2, 21)) == Answered(cfg, 2, 1, 1, Piece(b))
  {
    PieceOfRecord(b);
    CutLog(2, h, 21);
    assert Vector(h.node.log) == [DUMMY];
    hide HostAfter;
    hide Piece;
    hide Replay;
    hide AppendedFile;
  }

  /** The entry is written behind the piece, and the next start reads another one. */
  lemma {:induction false} RestartMisreads(h: Host, b: Byte)
    requires b != 0 && h.phase.Idle? && h.disk == Disk(1, 1, Piece(b))
    requires h.node.log == Log([], 1, [OneByteEntry(b)], 0, 0)
    ensures CrashedAfterWrite(2, h).node.log == Log([OneByteEntry(1)], 0, [], 0, 0)
  {
    FileMisreads(b);
    CrashedLog(2, h);
    assert Vector(h.node.log) == [DUMMY];
    hide *;
  }

  // ----- the run -----

  /** Node 1 is elected by node 2 and takes a proposal. */
  lemma {:induction false} Elected(cfg: Config, b: Byte) returns (c: State)
    requires cfg.voters == [1, 2] && cfg.maxInflight >= 1
    ensures Reached(cfg, c, Intactly) && c.hosts.Keys == {1, 2}
    ensures LeadsFirst(cfg, 1, 2, 1, b, c.hosts[1]) && c.hosts[2] == Following(cfg, 2, 1, 1, [])
  {
    hide Reached;
    hide FreshHost;
    hide Blank;
    hide Answered;
    hide Stands;
    hide LeadsFirst;
    c := Begins(cfg, Intactly);
    FreshIsBlank(1, cfg);
    FreshIsBlank(2, cfg);
    var a := Asks(cfg, c, 1, 2, Intactly);
    c := State(c.hosts[1 := a], c.net + {Ask(1, 2, 1)});
    Answers(cfg, c, 2, Ask(1, 2, 1), Intactly);
    c := State(c.hosts[2 := Answered(cfg, 2, 1, 1, [])], c.net + {GrantMsg(2, 1, 1)});
    assert c.hosts[2].disk.file == [] by { AnsweredIsBlank(cfg, 2, 1, 1, []); }
    c := OpensTerm(cfg, c, 1, 2, 1, b, Intactly);
  }

  /** The leader sends the entry once it has written it. */
  lemma {:induction false} Carried(cfg: Config, b: Byte) returns (c: State)
    requires cfg.voters == [1, 2] && cfg.maxInflight >= 1
    ensures Reached(cfg, c, Intactly) && c.hosts.Keys == {1, 2}
    ensures Carry(1, 2, 1, b) in c.net && c.hosts[2] == Following(cfg, 2, 1, 1, [])
    ensures c.hosts[1].node.log == Log([OneByteEntry(b)], 1, [OneByteEntry(b)], 0, 0)
  {
    c := Elected(cfg, b);
    hide Reached;
    hide Following;
    var a := c.hosts[1];
    FirstIsWritten(1, a, 1, b);
    hide Synchronised;
    SendsOne(cfg, c, 1, Carry(1, 2, 1, b), Intactly);
    c := State(c.hosts[1 := Synchronised(1, a)], c.net + {Carry(1, 2, 1, b)});
  }

  /** Node 2 takes the entry, crashes while writing it, and is left with a piece of its record. */
  lemma {:induction false} Torn(cfg: Config, c: State, b: Byte)
    requires Reached(cfg, c, Intactly) && 2 in c.hosts && Carry(1, 2, 1, b) in c.net && c.hosts[2] == Following(cfg, 2, 1, 1, [])
    ensures Reached(cfg, c.(hosts := c.hosts[2 := Answered(cfg, 2, 1, 1, Piece(b))]), Intactly)
  {
    hide HostAfter;
    hide Reached;
    hide Following;
    FollowingIsBlank(cfg, 2, 1, 1, []);
    FollowerTakes(cfg, c.hosts[2], b);
    var h1 := HostAfter(c.hosts[2], Deliver(2, Carry(1, 2, 1, b)));
    CrashLeavesPiece(cfg, h1, b);
    var h2 := HostAfter(h1, Poll(2));
    assert c.hosts[2].phase.Idle? && Carry(1, 2, 1, b).to == 2;
    hide Answered;
    hide Piece;
    hide Carry;
    hide CutsTheWrite;
    hide OneByteEntry;
    Unchanged(c, 2);
    Acts(cfg, c, 2, c.hosts[2], Deliver(2, Carry(1, 2, 1, b)), Intactly);
    Acts(cfg, c, 2, h1, Poll(2), Intactly);
    Acts(cfg, c, 2, h2, CrashWhileSaving(2, 21), Intactly);
  }

  /** It takes the entry again, writes it behind the piece, and restarts. */
  lemma {:induction false} Misread(cfg: Config, c: State, b: Byte) returns (h: Host)
    requires b != 0 && Reached(cfg, c, Intactly) && 2 in c.hosts && Carry(1, 2, 1, b) in c.net
    requires c.hosts[2] == Answered(cfg, 2, 1, 1, Piece(b))
    ensures Reached(cfg, c.(hosts := c.hosts[2 := h]), Intactly) && h.node.log == Log([OneByteEntry(1)], 0, [], 0, 0)
  {
    AnsweredIsBlank(cfg, 2, 1, 1, Piece(b));
    FollowerTakes(cfg, c.hosts[2], b);
    var h0 := HostAfter(c.hosts[2], Deliver(2, Carry(1, 2, 1, b)));
    assert c.hosts[2].phase.Idle? && Carry(1, 2, 1, b).to == 2;
    h := CrashedAfterWrite(2, h0);
    hide HostAfter;
    hide Reached;
    hide Answered;
    hide Piece;
    hide Carry;
    hide OneByteEntry;
    hide CrashedAfterWrite;
    RestartMisreads(h0, b);
    Unchanged(c, 2);
    Acts(cfg, c, 2, c.hosts[2], Deliver(2, Carry(1, 2, 1, b)), Intactly);
    WritesAndCrashes(cfg, c, 2, h0, Intactly);
  }

  lemma {:induction false} EntriesDiffer(b: Byte)
    requires b != 1
    ensures !LogsMatch([OneByteEntry(b)], [OneByteEntry(1)])
  {
    var x, y := [OneByteEntry(b)], [OneByteEntry(1)];
    assert x[0].data[0] != y[0].data[0];
    assert x[..1][0] == x[0] && y[..1][0] == y[0];
  }

  lemma {:induction false} TheTwoLogs(b: Byte)
    requires b != 1
    ensures var a, f := Log([OneByteEntry(b)], 1, [OneByteEntry(b)], 0, 0), Log([OneByteEntry(1)], 0, [], 0, 0);
            Valid(a) && Valid(f) && !LogsMatch(Logical(a), Logical(f))
  {
    EntriesDiffer(b);
    hide LogsMatch;
    assert [] + [OneByteEntry(b)] == [OneByteEntry(b)];
  }

  /** A run without a lost vote in which two logs hold different entries of one term at one index. */
  lemma {:induction false} LogsDiverge(cfg: Config, b: Byte) returns (run: seq<State>)
    requires cfg.voters == [1, 2] && cfg.maxInflight >= 1 && b != 0 && b != 1
    ensures IntactRun(cfg, run)
    ensures var c := run[|run| - 1];
            && 1 in c.hosts && 2 in c.hosts && Valid(c.hosts[1].node.log) && Valid(c.hosts[2].node.log)
            && !LogsMatch(Logical(c.hosts[1].node.log), Logical(c.hosts[2].node.log))
  {
    var c := Carried(cfg, b);
    TheTwoLogs(b);
    hide Answered;
    hide Piece;
    hide OneByteEntry;
    hide LogsMatch;
    hide Valid;
    hide Logical;
    Torn(cfg, c, b);
    var c1 := c.(hosts := c.hosts[2 := Answered(cfg, 2, 1, 1, Piece(b))]);
    var h := Misread(cfg, c1, b);
    var c2 := c1.(hosts := c1.hosts[2 := h]);
    run :| EndsIn(cfg, run, c2, Intactly);
    hide Init;
    hide IntactNext;
  }
}
