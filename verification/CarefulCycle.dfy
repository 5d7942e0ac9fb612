/** The steps of the Ready cycle, crashes and departing messages keep the invariant about commitment. */
module CarefulCycle {
  import opened Bytes
  import opened RaftTypes
  import opened LogSpec
  import opened LogTheorems
  import opened WalSpec
  import opened NodeSpec
  import opened Cluster
  import opened Canon
  import opened Claims
  import opened Votes
  import opened Replication
  import opened CarefulRuns
  import opened Commitment
  import opened LeaderSteps
  import opened CommitGrowth
  import opened CommitCycle
  import opened KeptSteps
  import opened InformedVotes
  import opened CarefulFrame
  import opened CarefulAccount

  /** The account with another host in x's place. */
  function WithHost(s: Account, x: NodeId, h: Host): Account { s.(c := s.c.(hosts := s.c.hosts[x := h])) }

  /** Says nothing new, and is a candidate only as before. */
  ghost predicate Stays(h: Host, h': Host)
    requires Valid(h.node.log) && Valid(h'.node.log)
  {
    && Pending(h') <= Pending(h)
    && (h'.node.role == Candidate ==>
          h.node.role == Candidate && h'.node.term == h.node.term && Logical(h'.node.log) == Logical(h.node.log))
  }

  lemma {:induction false} RecordedTerms(cfg: Config, s: Account, t: nat)
    requires Holds(cfg, s) && t in s.chain
    ensures t in s.e.quorum
  {
    hide CommitInv;
  }

  lemma {:induction false} OrderedWinners(cfg: Config, s: Account)
    requires Holds(cfg, s)
    ensures OrderOk(s.c, s.e, s.chain, s.ord) && Elements(s.ord) == s.e.winner.Keys && ChainsRise(s.chain) && NetOk(cfg, s.c.net, s.e, s.chain)
  {
    hide VoteInv;
    hide LogInv;
    hide HostOk;
    hide MessageOk;
  }

  /** One host changes and nothing else. */
  lemma {:induction false} OneHostMoves(cfg: Config, s: Account, x: NodeId, h': Host)
    requires Holds(cfg, s) && x in s.c.hosts
    ensures Moves(s, WithHost(s, x, h'), x) && KnownWell(cfg, s, WithHost(s, x, h'))
  {
    hide Holds;
    hide ChainsRise;
    hide NetOk;
    hide LastIsInformed;
    OrderedWinners(cfg, s);
    forall t | t in s.chain ensures t in s.e.quorum { RecordedTerms(cfg, s, t); }
  }

  lemma {:induction false} SameLastEntry(l: Log, l': Log)
    requires Valid(l) && Valid(l') && Logical(l') == Logical(l)
    ensures LastTerm(l') == LastTerm(l) && LastIndex(l') == LastIndex(l)
  {
    FinalTermIs(l);
    FinalTermIs(l');
  }

  lemma {:induction false} StayingSpeaks(cfg: Config, s: Account, x: NodeId, h': Host)
    requires x in s.c.hosts && AsksOk(Said(s.c, x), x, s.c.hosts[x].node)
    requires Valid(s.c.hosts[x].node.log) && Valid(h'.node.log) && Stays(s.c.hosts[x], h')
    requires forall y :: y in s.c.hosts ==> Valid(s.c.hosts[y].node.log)
    ensures SpeaksWell(s, WithHost(s, x, h'), x)
  {
    hide CandidateOk;
    hide Logical;
    var h, s' := s.c.hosts[x], WithHost(s, x, h');
    assert Said(s'.c, x) <= Said(s.c, x);
    if h'.node.role == Candidate { SameLastEntry(h.node.log, h'.node.log); }
    hide LastTerm;
    hide LastIndex;
    hide Valid;
  }

  /** A host that says nothing new and holds what it should. */
  lemma {:induction false} QuietHostKeeps(cfg: Config, s: Account, x: NodeId, h': Host)
    requires Holds(cfg, s) && x in s.c.hosts && HoldsApart(cfg, WithHost(s, x, h'))
    requires Valid(s.c.hosts[x].node.log) && Valid(h'.node.log) && Stays(s.c.hosts[x], h')
    requires HostOk(cfg, s.c.net, s.e, s.chain, x, h') && KeepsClaims(s.c.net, s.chain, s.ord, x, h')
    ensures Holds(cfg, WithHost(s, x, h'))
  {
    LogsAreValid(s);
    hide Holds;
    hide HoldsApart;
    hide HostOk;
    hide KeepsClaims;
    hide Stays;
    hide Valid;
    OneHostMoves(cfg, s, x, h');
    WasAsking(cfg, s, x);
    StayingSpeaks(cfg, s, x, h');
    hide Moves;
    hide KnownWell;
    hide SpeaksWell;
    Assembled(cfg, s, WithHost(s, x, h'), x);
  }

  // ----- the Ready cycle -----

  /** What the invariants say of one host. */
  lemma {:induction false} OneHost(cfg: Config, s: Account, x: NodeId)
    requires Holds(cfg, s) && x in s.c.hosts
    ensures var h := s.c.hosts[x];
            Valid(h.node.log) && HostOk(cfg, s.c.net, s.e, s.chain, x, h) && KeepsClaims(s.c.net, s.chain, s.ord, x, h)
            && HostVotes(cfg, s.c.net, s.e, x, h) && HostLog(s.chain, h)
  {
  }

  /** An action of the cycle itself. */
  predicate OfCycle(a: Action) { a.Poll? || a.SaveEntries? || a.SaveHardState? || a.Finish? }

  lemma {:induction false} SaveStays(h: Host, x: NodeId)
    requires h.phase.Polled? && Valid(h.node.log) && h.phase.rd.entries <= h.node.log.window
    ensures var h' := HostAfter(h, SaveEntries(x)); Valid(h'.node.log) && Stays(h, h')
  {
    hide HostAfter;
    hide Persist;
    hide FileAfter;
    SavedHost(h, x);
    PersistWritesThrough(h.node.log, h.phase.rd.entries);
    hide Logical;
    hide WrittenThrough;
    hide Pending;
  }

  lemma {:induction false} FinishStays(h: Host, x: NodeId)
    requires h.phase.Synced? && Valid(h.node.log) && WrittenThrough(h.node.log, h.phase.rd.entries)
    requires h.node.readyLast == LastOf(h.phase.rd.entries)
    ensures var h' := HostAfter(h, Finish(x)); Valid(h'.node.log) && Stays(h, h')
  {
    hide Advance;
    AdvanceKeepsLogical(h.node, h.phase.rd.entries);
    hide Logical;
    hide WrittenThrough;
  }

  lemma {:induction false} CycleStays(s: Account, a: Action)
    requires OfCycle(a) && Enabled(s.c, a) && HostLog(s.chain, s.c.hosts[a.x])
    ensures var h := s.c.hosts[a.x]; Valid(HostAfter(h, a).node.log) && Stays(h, HostAfter(h, a))
  {
    var h := s.c.hosts[a.x];
    assert CycleOk(h) && Valid(h.node.log);
    hide HostLog;
    hide Logical;
    match a
    case Poll(_) => assert Pending(HostAfter(h, a)) == Pending(h);
    case SaveEntries(_) => SaveStays(h, a.x);
    case SaveHardState(_) => assert Pending(HostAfter(h, a)) == Pending(h);
    case Finish(_) => FinishStays(h, a.x);
  }

  lemma {:induction false} CycleKeepsHost(cfg: Config, s: Account, a: Action)
    requires OfCycle(a) && Enabled(s.c, a) && HostLog(s.chain, s.c.hosts[a.x]) && HostVotes(cfg, s.c.net, s.e, a.x, s.c.hosts[a.x])
    requires HostOk(cfg, s.c.net, s.e, s.chain, a.x, s.c.hosts[a.x])
    ensures HostOk(cfg, s.c.net, s.e, s.chain, a.x, HostAfter(s.c.hosts[a.x], a))
  {
    var h := s.c.hosts[a.x];
    assert h.phase.Saved? ==> h.phase.rd.term >= h.disk.term;
    assert CycleOk(h);
    hide HostVotes;
    hide HostLog;
    hide HostOk;
    match a
    case Poll(_) => PollKeepsCommit(cfg, s.c.net, s.e, s.chain, a.x, h);
    case SaveEntries(_) => SaveEntriesKeepsCommit(cfg, s.c.net, s.e, s.chain, a.x, h);
    case SaveHardState(_) => SaveHardStateKeepsCommit(cfg, s.c.net, s.e, s.chain, a.x, h);
    case Finish(_) => FinishKeepsCommit(cfg, s.c.net, s.e, s.chain, a.x, h);
  }

  lemma {:induction false} CycleKeepsClaim(s: Account, a: Action, t: nat, k: nat, p: seq<Entry>)
    requires OfCycle(a) && Enabled(s.c, a) && HostLog(s.chain, s.c.hosts[a.x]) && |p| == k
    requires Kept(s.c.net, a.x, s.c.hosts[a.x], t, k, p) && Valid(HostAfter(s.c.hosts[a.x], a).node.log)
    ensures Kept(s.c.net, a.x, HostAfter(s.c.hosts[a.x], a), t, k, p)
  {
    var h := s.c.hosts[a.x];
    assert CycleOk(h) && Valid(h.node.log);
    hide HostLog;
    hide Kept;
    match a
    case Poll(_) => PollKeepsClaims(s.c.net, a.x, h, t, k, p);
    case SaveEntries(_) => SaveEntriesKeepsClaims(s.c.net, a.x, h, t, k, p);
    case SaveHardState(_) => SaveHardStateKeepsClaims(s.c.net, a.x, h, t, k, p);
    case Finish(_) => FinishKeepsClaims(s.c.net, a.x, h, t, k, p);
  }

  lemma {:induction false} CycleKeepsClaims(s: Account, a: Action)
    requires OfCycle(a) && Enabled(s.c, a) && HostLog(s.chain, s.c.hosts[a.x]) && Valid(HostAfter(s.c.hosts[a.x], a).node.log)
    requires KeepsClaims(s.c.net, s.chain, s.ord, a.x, s.c.hosts[a.x])
    ensures KeepsClaims(s.c.net, s.chain, s.ord, a.x, HostAfter(s.c.hosts[a.x], a))
  {
    hide HostLog;
    hide HostAfter;
    hide Kept;
    hide AllHave;
    forall t: nat, k: nat | Marked(s.chain, t, k) && AllHave(s.chain, s.ord, t, k)
      ensures Kept(s.c.net, a.x, HostAfter(s.c.hosts[a.x], a), t, k, s.chain[t][..k])
    {
      CycleKeepsClaim(s, a, t, k, s.chain[t][..k]);
    }
  }

  lemma {:induction false} CycleKeepsCommit(cfg: Config, s: Account, a: Action)
    requires Holds(cfg, s) && OfCycle(a) && Enabled(s.c, a) && HoldsApart(cfg, s.(c := Perform(s.c, a)))
    ensures Holds(cfg, s.(c := Perform(s.c, a)))
  {
    hide Holds;
    hide HoldsApart;
    hide HostAfter;
    hide HostOk;
    hide HostLog;
    hide KeepsClaims;
    hide Stays;
    OneHost(cfg, s, a.x);
    CycleStays(s, a);
    CycleKeepsHost(cfg, s, a);
    CycleKeepsClaims(s, a);
    hide Valid;
    QuietHostKeeps(cfg, s, a.x, HostAfter(s.c.hosts[a.x], a));
  }

  // ----- crashes -----

  /** A careful cut leaves what is in front of the window. */
  lemma {:induction false} CutLeavesFront(chain: Chains, h: Host, kept: nat, k: nat)
    requires HostLog(chain, h) && h.phase.Polled? && h.phase.rd.entries != [] && CleanWrite(h, h.phase.rd.entries)
    requires CarefulCrash(h, kept) && k <= |h.node.log.stored| && WindowBeyond(h.node.log, k)
    ensures var full := FileAfter(h, h.phase.rd.entries);
            h.node.log.stored[..k] <= Replay(full[..Min(kept, |full|)])[1..]
  {
    hide Records;
    hide Replay;
    hide Unread;
    hide Canonical;
    hide ReadRecord;
    var es, stored := h.phase.rd.entries, h.node.log.stored;
    var full, first := FileAfter(h, es), es[0].index;
    VectorAppends(h.node.log, es);
    assert es[0] == h.node.log.window[0] && first == h.node.log.offset;
    assert Vector(h.node.log)[1..first] == stored[..first - 1];
    if first == |Vector(h.node.log)| {
      assert Vector(h.node.log)[1..] == stored[..first - 1];
    } else {
      assert Vector(h.node.log)[1..Max(1, first)] == stored[..first - 1];
    }
    assert |full| >= |Records(stored[..first - 1])|;
    var cut := Min(kept, |full|);
    FrontSurvivesExactlyWhen(h.disk.file, Vector(h.node.log), es, cut);
    assert Vector(h.node.log)[..first][1..] == stored[..first - 1];
    assert stored[..k] <= stored[..first - 1];
  }

  /** Storage after a crash: all of it, or all that is in front of the window. */
  ghost predicate StorageStays(h: Host, disk: Disk) {
    || Replay(disk.file)[1..] == h.node.log.stored
    || (!Written(h) && forall k: nat :: k <= |h.node.log.stored| && WindowBeyond(h.node.log, k) ==>
          h.node.log.stored[..k] <= Replay(disk.file)[1..])
  }

  lemma {:induction false} RestartKeepsCommitInv(cfg: Config, s: Account, x: NodeId, disk: Disk)
    requires Holds(cfg, s) && x in s.c.hosts && disk.term >= s.c.hosts[x].disk.term && StorageStays(s.c.hosts[x], disk)
    requires HoldsApart(cfg, WithHost(s, x, Restarted(s.c.hosts[x], disk)))
    ensures Holds(cfg, WithHost(s, x, Restarted(s.c.hosts[x], disk)))
  {
    hide Holds;
    hide HostOk;
    hide HostLog;
    hide HostVotes;
    var h := s.c.hosts[x];
    var h' := Restarted(h, disk);
    LogsAreValid(WithHost(s, x, h'));
    assert WithHost(s, x, h').c.hosts[x] == h';
    hide HoldsApart;
    OneHost(cfg, s, x);
    RestartKeepsCommit(cfg, s.c.net, s.e, s.chain, x, h, disk);
    forall t: nat, k: nat | Marked(s.chain, t, k) && AllHave(s.chain, s.ord, t, k) ensures Kept(s.c.net, x, h', t, k, s.chain[t][..k]) {
      RestartKeepsClaim(s.c.net, x, h, disk, t, k, s.chain[t][..k]);
    }
    hide Valid;
    hide Kept;
    hide StorageStays;
    assert Pending(h') == {};
    QuietHostKeeps(cfg, s, x, h');
  }

  lemma {:induction false} RestartKeepsClaim(net: set<Message>, x: NodeId, h: Host, disk: Disk, t: nat, k: nat, p: seq<Entry>)
    requires Valid(h.node.log) && Kept(net, x, h, t, k, p) && |p| == k
    requires StorageStays(h, disk) && Valid(Restarted(h, disk).node.log)
    ensures Kept(net, x, Restarted(h, disk), t, k, p)
  {
    hide Replay;
    hide Logical;
    hide ClaimedBy;
    if ClaimedBy(net, x, t, k) { assert p == h.node.log.stored[..k]; }
    RestartKeepsClaims(net, x, h, disk, t, k, p);
  }

  predicate IsCrash(a: Action) { a.Crash? || a.CrashWhileSaving? || a.CrashWhileSavingHard? }

  lemma {:induction false} CutKeepsStorage(chain: Chains, h: Host, kept: nat)
    requires HostLog(chain, h) && h.phase.Polled? && h.phase.rd.entries != [] && CleanWrite(h, h.phase.rd.entries) && CarefulCrash(h, kept)
    ensures var full := FileAfter(h, h.phase.rd.entries); StorageStays(h, h.disk.(file := full[..Min(kept, |full|)]))
  {
    hide HostLog;
    hide CleanWrite;
    hide CarefulCrash;
    hide FileAfter;
    hide Replay;
    var full := FileAfter(h, h.phase.rd.entries);
    forall k: nat | k <= |h.node.log.stored| && WindowBeyond(h.node.log, k)
      ensures h.node.log.stored[..k] <= Replay(full[..Min(kept, |full|)])[1..]
    {
      CutLeavesFront(chain, h, kept, k);
    }
  }

  lemma {:induction false} SameFileStays(chain: Chains, h: Host, disk: Disk)
    requires HostLog(chain, h) && disk.file == h.disk.file
    ensures StorageStays(h, disk)
  {
    RecoversReplays(h.disk.file, Vector(h.node.log));
    hide Replay;
    assert Vector(h.node.log)[1..] == h.node.log.stored;
  }

  lemma {:induction false} DiskAfterCrash(cfg: Config, run: seq<State>, s: Account, a: Action) returns (disk: Disk)
    requires Holds(cfg, s) && IsCrash(a) && |run| >= 1 && s.c == run[|run| - 1]
    requires Enabled(s.c, a) && Intact(s.c, a) && Clean(s.c, a) && Careful(run, a)
    ensures HostAfter(s.c.hosts[a.x], a) == Restarted(s.c.hosts[a.x], disk)
    ensures disk.term >= s.c.hosts[a.x].disk.term && StorageStays(s.c.hosts[a.x], disk)
  {
    hide Holds;
    hide HostLog;
    hide StorageStays;
    hide FileAfter;
    hide Restarted;
    hide HostOk;
    hide KeepsClaims;
    hide CarefulCrash;
    hide CleanWrite;
    OneHost(cfg, s, a.x);
    var h := s.c.hosts[a.x];
    match a
    case Crash(_) =>
      disk := h.disk;
      SameFileStays(s.chain, h, disk);
    case CrashWhileSaving(_, kept) =>
      var full := FileAfter(h, h.phase.rd.entries);
      disk := h.disk.(file := full[..Min(kept, |full|)]);
      hide HostVotes;
      CutKeepsStorage(s.chain, h, kept);
    case CrashWhileSavingHard(_, kept) =>
      var hs := HardAfter(h.phase.rd, kept);
      disk := h.disk.(term := hs.term, vote := hs.vote);
      SameFileStays(s.chain, h, disk);
  }

  lemma {:induction false} CrashKeepsCommit(cfg: Config, run: seq<State>, s: Account, a: Action)
    requires Holds(cfg, s) && IsCrash(a) && |run| >= 1 && s.c == run[|run| - 1]
    requires Enabled(s.c, a) && Intact(s.c, a) && Clean(s.c, a) && Careful(run, a) && HoldsApart(cfg, s.(c := Perform(s.c, a)))
    ensures Holds(cfg, s.(c := Perform(s.c, a)))
  {
    hide Holds;
    hide HoldsApart;
    hide HostAfter;
    hide StorageStays;
    hide Intact;
    hide Clean;
    hide Careful;
    var disk := DiskAfterCrash(cfg, run, s, a);
    hide Restarted;
    RestartKeepsCommitInv(cfg, s, a.x, disk);
  }

  // ----- messages leave -----

  /** The account with one more message on its way. */
  function WithMessage(s: Account, m: Message): Account { s.(c := s.c.(net := s.c.net + {m})) }

  lemma {:induction false} SentIsOwn(cfg: Config, s: Account, x: NodeId, m: Message)
    requires Holds(cfg, s) && Enabled(s.c, Send(x, m))
    ensures var h := s.c.hosts[x];
            && m in Pending(h) && (IsClaim(m) || ElectionMsg(m) ==> m.from == x) && MessageOk(cfg, s.c.net, s.e, s.chain, m)
            && ClaimsUpTo(s.c.net + {m}, x, h.disk.term)
  {
    hide Holds;
    OneHost(cfg, s, x);
    hide NodeOk;
    hide KeepsClaims;
    hide HostLog;
    hide MessageOk;
  }

  lemma {:induction false} NetStaysOk(cfg: Config, s: Account, m: Message)
    requires NetOk(cfg, s.c.net, s.e, s.chain) && MessageOk(cfg, s.c.net, s.e, s.chain, m)
    ensures NetOk(cfg, s.c.net + {m}, s.e, s.chain)
  {
    forall g | g in s.c.net + {m} ensures MessageOk(cfg, s.c.net + {m}, s.e, s.chain, g) {
      MessageGrows(cfg, s.c.net, s.c.net + {m}, s.e, s.e, s.chain, s.chain, g);
    }
  }

  /** One more message, which x may send. */
  lemma {:induction false} OneMessageMoves(cfg: Config, s: Account, x: NodeId, m: Message)
    requires Holds(cfg, s) && x in s.c.hosts && (IsClaim(m) || ElectionMsg(m) ==> m.from == x) && MessageOk(cfg, s.c.net, s.e, s.chain, m)
    ensures Moves(s, WithMessage(s, m), x) && KnownWell(cfg, s, WithMessage(s, m))
  {
    hide Holds;
    hide ChainsRise;
    hide LastIsInformed;
    OrderedWinners(cfg, s);
    NetStaysOk(cfg, s, m);
    hide NetOk;
    hide MessageOk;
    forall t | t in s.chain ensures t in s.e.quorum { RecordedTerms(cfg, s, t); }
  }

  lemma {:induction false} MessageSpeaks(s: Account, x: NodeId, m: Message)
    requires x in s.c.hosts && AsksOk(Said(s.c, x), x, s.c.hosts[x].node) && (m in Pending(s.c.hosts[x]) || m.typ == MsgPropose)
    requires forall y :: y in s.c.hosts ==> Valid(s.c.hosts[y].node.log)
    ensures SpeaksWell(s, WithMessage(s, m), x)
  {
    hide CandidateOk;
    hide Logical;
    hide Valid;
    hide LastTerm;
    hide LastIndex;
    var s' := WithMessage(s, m);
    assert forall g :: g in Said(s'.c, x) ==> g in Said(s.c, x) || g.typ == MsgPropose;
  }

  lemma {:induction false} MessageKeepsCommit(cfg: Config, s: Account, x: NodeId, m: Message)
    requires Holds(cfg, s) && x in s.c.hosts && HoldsApart(cfg, WithMessage(s, m))
    requires (m in Pending(s.c.hosts[x]) || m.typ == MsgPropose) && (IsClaim(m) || ElectionMsg(m) ==> m.from == x)
    requires MessageOk(cfg, s.c.net, s.e, s.chain, m) && ClaimsUpTo(s.c.net + {m}, x, s.c.hosts[x].disk.term)
    requires Valid(s.c.hosts[x].node.log) && KeepsClaims(s.c.net + {m}, s.chain, s.ord, x, s.c.hosts[x])
    ensures Holds(cfg, WithMessage(s, m))
  {
    LogsAreValid(s);
    hide Holds;
    hide HoldsApart;
    hide MessageOk;
    hide KeepsClaims;
    hide Valid;
    hide ClaimsUpTo;
    OneHost(cfg, s, x);
    hide HostVotes;
    hide HostLog;
    BystanderGrows(cfg, s.c.net, s.c.net + {m}, s.e, s.e, s.chain, s.chain, x, s.c.hosts[x]);
    hide HostOk;
    OneMessageMoves(cfg, s, x, m);
    WasAsking(cfg, s, x);
    MessageSpeaks(s, x, m);
    hide Moves;
    hide KnownWell;
    hide SpeaksWell;
    Assembled(cfg, s, WithMessage(s, m), x);
  }

  lemma {:induction false} SendKeepsCommit(cfg: Config, s: Account, x: NodeId, m: Message)
    requires Holds(cfg, s) && Enabled(s.c, Send(x, m)) && HoldsApart(cfg, WithMessage(s, m))
    ensures Holds(cfg, WithMessage(s, m))
  {
    hide Holds;
    hide HoldsApart;
    hide HostOk;
    hide HostLog;
    hide HostVotes;
    hide Valid;
    hide MessageOk;
    OneHost(cfg, s, x);
    SentIsOwn(cfg, s, x, m);
    hide Kept;
    forall t: nat, k: nat | Marked(s.chain, t, k) && AllHave(s.chain, s.ord, t, k)
      ensures Kept(s.c.net + {m}, x, s.c.hosts[x], t, k, s.chain[t][..k])
    {
      SendKeepsClaims(s.c.net, x, s.c.hosts[x], m, t, k, s.chain[t][..k]);
    }
    MessageKeepsCommit(cfg, s, x, m);
  }

  lemma {:induction false} ProposalClaimsNothing(net: set<Message>, m: Message, w: NodeId, t: nat, k: nat)
    requires m.typ == MsgPropose
    ensures ClaimedBy(net + {m}, w, t, k) <==> ClaimedBy(net, w, t, k)
  {
    if ClaimedBy(net + {m}, w, t, k) {
      var g :| g in net + {m} && IsClaim(g) && g.from == w && g.term == t && End(g) >= k;
      assert g in net;
    }
  }

  lemma {:induction false} ClientKeepsCommit(cfg: Config, s: Account, x: NodeId, m: Message)
    requires Holds(cfg, s) && x in s.c.hosts && m.typ == MsgPropose && HoldsApart(cfg, WithMessage(s, m))
    ensures Holds(cfg, WithMessage(s, m))
  {
    hide Holds;
    hide HoldsApart;
    hide HostLog;
    hide HostVotes;
    hide Valid;
    hide Logical;
    OneHost(cfg, s, x);
    assert ClaimsUpTo(s.c.net + {m}, x, s.c.hosts[x].disk.term);
    hide HostOk;
    forall t: nat, k: nat | Marked(s.chain, t, k) && AllHave(s.chain, s.ord, t, k)
      ensures Kept(s.c.net + {m}, x, s.c.hosts[x], t, k, s.chain[t][..k])
    {
      ProposalClaimsNothing(s.c.net, m, x, t, k);
    }
    hide Kept;
    MessageKeepsCommit(cfg, s, x, m);
  }
}
