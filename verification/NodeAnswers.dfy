/** What a node must send: the other half of what it may send.  A leader keeps a peer supplied, a raised
    commit index goes out, and every message of a peer gets the answer it waits for. */
module NodeAnswers {
  import opened Bytes
  import opened RaftTypes
  import opened LogSpec
  import opened LogTheorems
  import opened SliceLimits
  import opened ProgressSpec
  import opened NodeSpec
  import opened Acceptance
  import opened LeaderSteps

  // ----- supplying a peer -----

  /** Among the messages is an append of term t from x to v behind index prev, with a non-empty run of the
      log from there. */
  ghost predicate Supplied(ms: set<Message>, x: NodeId, t: nat, v: NodeId, log: seq<Entry>, prev: nat, commit: nat) {
    exists m :: m in ms && m.typ == MsgApp && m.from == x && m.to == v && m.term == t && m.index == prev && m.commit == commit
                && m.entries != [] && RunFull(log, prev, m.logTerm, m.entries)
  }

  /** The peer may be sent something, and there is something to send from its next index on. */
  ghost predicate Lacks(n: Node, p: Progress) {
    && !p.paused && (p.state == Replicate ==> |p.inflights| != p.capacity)
    && 1 <= p.nextIndex <= LastIndex(n.log) && Served(n.log, p.nextIndex)
  }

  lemma {:induction false} LackingIsSent(n: Node, p: Progress)
    requires Valid(n.log) && Lacks(n, p)
    ensures Sends(n, p) && Batch(n, p) != []
  {
    hide Slice;
    SliceServes(n.log, p.nextIndex, LastIndex(n.log) + 1, n.cfg.maxSize);
  }

  lemma {:induction false} AppendSupplies(n: Node, v: NodeId, p: Progress, ms: set<Message>)
    requires Valid(n.log) && Lacks(n, p) && p.nextIndex >= 1 && AppendTo(n, v, p) in ms
    ensures Supplied(ms, n.id, n.term, v, Logical(n.log), p.nextIndex - 1, n.log.committed)
  {
    LackingIsSent(n, p);
    BatchIsFull(n, v, p);
    hide Batch;
    hide Sends;
    hide RunFull;
  }

  lemma {:induction false} SendSupplies(n: Node, v: NodeId)
    requires Valid(n.log) && v in n.pr && Lacks(n, n.pr[v])
    ensures Supplied(SendAppend(n, v).msgs, n.id, n.term, v, Logical(n.log), n.pr[v].nextIndex - 1, n.log.committed)
  {
    LackingIsSent(n, n.pr[v]);
    hide Sends;
    hide AppendTo;
    AppendSupplies(n, v, n.pr[v], SendAppend(n, v).msgs);
  }

  lemma {:induction false} BroadcastSupplies(n: Node, v: NodeId)
    requires Valid(n.log) && v in n.pr && v != n.id && Lacks(n, n.pr[v])
    ensures Supplied(BroadcastAppend(n).msgs, n.id, n.term, v, Logical(n.log), n.pr[v].nextIndex - 1, n.log.committed)
  {
    hide Sends;
    hide AppendTo;
    hide AfterSend;
    hide Supplied;
    LackingIsSent(n, n.pr[v]);
    assert AppendTo(n, v, n.pr[v]) in BroadcastAppend(n).msgs;
    hide BroadcastAppend;
    AppendSupplies(n, v, n.pr[v], BroadcastAppend(n).msgs);
  }

  lemma {:induction false} MoreIsSupplied(ms: set<Message>, ms': set<Message>, x: NodeId, t: nat, v: NodeId, log: seq<Entry>, prev: nat, commit: nat)
    requires Supplied(ms, x, t, v, log, prev, commit) && ms <= ms'
    ensures Supplied(ms', x, t, v, log, prev, commit)
  {
    hide RunFull;
  }

  /** A heartbeat reply from a peer that lacks something: it is sent again from the peer's next index on. */
  lemma {:induction false} HeartbeatReplySupplies(n: Node, m: Message)
    requires n.role == Leader && Valid(n.log) && m.typ == MsgHeartbeatResp && m.term == n.term
    requires m.from in n.pr && Lacks(n, n.pr[m.from])
    ensures Supplied(Step(n, m).msgs, n.id, n.term, m.from, Logical(n.log), n.pr[m.from].nextIndex - 1, n.log.committed)
  {
    hide SendAppend;
    hide Supplied;
    hide Logical;
    hide Numbered;
    SendSupplies(n, m.from);
    assert Step(n, m) == SendAppend(n, m.from);
  }

  // ----- an acceptance -----

  /** The progress of the sender once its acceptance of index i is counted. */
  ghost predicate Acknowledged(p: Progress, i: nat, p': Progress) {
    && p'.state == Replicate && p'.matchIndex == Max(p.matchIndex, i) && p'.capacity == p.capacity
    && p'.nextIndex == (if p.state == Probe then p'.matchIndex else i) + 1
    && p'.paused == (p.state == Replicate && p.paused)
  }

  /** The first k appends on their way are acknowledged by index i. */
  ghost predicate FrontCovered(p: Progress, k: nat, i: nat) {
    k <= |p.inflights| && forall j :: 0 <= j < k ==> p.inflights[j] <= i
  }

  lemma {:induction false} FreeToFrees(q: seq<nat>, to: nat, k: nat)
    requires k <= |q| && forall j :: 0 <= j < k ==> q[j] <= to
    ensures |FreeTo(q, to)| <= |q| - k
    decreases |q|
  {
    if q != [] && to >= q[0] { FreeToFrees(q[1..], to, if k == 0 then 0 else k - 1); }
  }

  function Counted(p: Progress, i: nat): Progress {
    var u := Update(p, i);
    if u.state == Probe then BecomeReplicate(u) else u
  }

  lemma {:induction false} CountedIs(p: Progress, i: nat, k: nat)
    requires FrontCovered(p, k, i)
    ensures var p' := Counted(p, i);
            Acknowledged(p, i, p') && |p'.inflights| <= if p.state == Probe then 0 else |p.inflights| - k
  {
    FreeToFrees(p.inflights, i, k);
    hide FreeTo;
  }

  /** The sender of an acceptance lacks what lies behind the index it accepted, if it may be sent more. */
  ghost predicate StillLacks(n: Node, p: Progress, i: nat, k: nat) {
    var next := (if p.state == Probe then Max(p.matchIndex, i) else i) + 1;
    && FrontCovered(p, k, i)
    && (if p.state == Probe then p.capacity > 0 else !p.paused && |p.inflights| - k < p.capacity)
    && next <= LastIndex(n.log) && Served(n.log, next)
  }

  lemma {:induction false} CountedLacks(n: Node, p: Progress, i: nat, k: nat)
    requires StillLacks(n, p, i, k)
    ensures Lacks(n, Counted(p, i))
  {
    CountedIs(p, i, k);
    hide Counted;
  }

  /** The leader with the acceptance counted, and with the commit index moved. */
  ghost function Tallied(n: Node, m: Message): Node
    requires m.from in n.pr
  {
    n.(pr := n.pr[m.from := Counted(n.pr[m.from], m.index)])
  }

  lemma {:induction false} AcceptanceIs(n: Node, m: Message)
    requires n.role == Leader && m.typ == MsgAppResp && !m.reject && m.term == n.term && m.from in n.pr
    ensures var t := Tallied(n, m);
            var b := if Commits(t) then BroadcastAppend(MaybeCommit(t)) else t;
            Step(n, m) == if b.pr[m.from].state == Replicate then SendAppend(b, m.from) else b
  {
    hide Commits;
    hide BroadcastAppend;
    hide SendAppend;
    hide Update;
  }

  lemma {:induction false} SendKeeps(n: Node, v: NodeId)
    ensures var n' := SendAppend(n, v); n.msgs <= n'.msgs && n'.log == n.log && n'.term == n.term && n'.id == n.id
  {
    hide Sends;
    hide AppendTo;
    hide AfterSend;
  }

  lemma {:induction false} BroadcastKeeps(n: Node)
    ensures var n' := BroadcastAppend(n); n.msgs <= n'.msgs && n'.log == n.log && n'.pr.Keys == n.pr.Keys
  {
    hide Sends;
    hide AppendTo;
    hide AfterSend;
  }

  /** Only the commit index moves. */
  lemma {:induction false} CommitMoves(n: Node)
    requires Valid(n.log)
    ensures var c := MaybeCommit(n);
            && Valid(c.log) && Logical(c.log) == Logical(n.log) && c.pr == n.pr && c.id == n.id && c.term == n.term && c.msgs == n.msgs
            && forall p :: Lacks(n, p) ==> Lacks(c, p)
  {
    hide Commits;
    hide QuorumIndex;
  }

  /** The commit index moved, the broadcast out, and one more append: v is supplied. */
  lemma {:induction false} CommitSupplies(n: Node, v: NodeId, to: NodeId)
    requires Valid(n.log) && v in n.pr && v != n.id && Lacks(n, n.pr[v])
    ensures var b := BroadcastAppend(MaybeCommit(n));
            && Supplied(b.msgs, n.id, n.term, v, Logical(n.log), n.pr[v].nextIndex - 1, b.log.committed)
            && Supplied(SendAppend(b, to).msgs, n.id, n.term, v, Logical(n.log), n.pr[v].nextIndex - 1, SendAppend(b, to).log.committed)
  {
    hide Supplied;
    hide MaybeCommit;
    hide BroadcastAppend;
    hide SendAppend;
    hide Logical;
    hide Numbered;
    hide Served;
    var c := MaybeCommit(n);
    var b := BroadcastAppend(c);
    CommitMoves(n);
    BroadcastSupplies(c, v);
    BroadcastKeeps(c);
    SendKeeps(b, to);
    MoreIsSupplied(b.msgs, SendAppend(b, to).msgs, n.id, n.term, v, Logical(n.log), n.pr[v].nextIndex - 1, c.log.committed);
  }

  lemma {:induction false} PlainSupplies(n: Node, v: NodeId)
    requires Valid(n.log) && v in n.pr && Lacks(n, n.pr[v])
    ensures var n' := SendAppend(n, v);
            Supplied(n'.msgs, n.id, n.term, v, Logical(n.log), n.pr[v].nextIndex - 1, n'.log.committed)
  {
    hide Supplied;
    SendSupplies(n, v);
    SendKeeps(n, v);
    hide SendAppend;
  }

  lemma {:induction false} TalliedIs(n: Node, m: Message)
    requires m.from in n.pr
    ensures var t := Tallied(n, m);
            && t.log == n.log && t.id == n.id && t.term == n.term && t.msgs == n.msgs
            && t.pr.Keys == n.pr.Keys && t.pr[m.from] == Counted(n.pr[m.from], m.index)
            && forall v :: v in n.pr && v != m.from ==> t.pr[v] == n.pr[v]
  {
    hide Counted;
  }

  /** Other peers' needs depend on the log only. */
  lemma {:induction false} LacksByLog(n: Node, n': Node, p: Progress)
    requires Lacks(n, p) && n'.log == n.log
    ensures Lacks(n', p)
  {
  }

  /** An accepted append: the sender gets what it still lacks. */
  lemma {:induction false} AcceptanceSupplies(n: Node, m: Message, k: nat)
    requires n.role == Leader && Valid(n.log) && m.typ == MsgAppResp && !m.reject && m.term == n.term
    requires m.from in n.pr && m.from != n.id && StillLacks(n, n.pr[m.from], m.index, k)
    ensures var n' := Step(n, m);
            var next := (if n.pr[m.from].state == Probe then Max(n.pr[m.from].matchIndex, m.index) else m.index) + 1;
            Supplied(n'.msgs, n.id, n.term, m.from, Logical(n.log), next - 1, n'.log.committed)
  {
    hide Supplied;
    hide Step;
    hide Counted;
    hide Lacks;
    hide Commits;
    hide MaybeCommit;
    hide BroadcastAppend;
    hide SendAppend;
    hide Logical;
    hide Valid;
    hide Tallied;
    AcceptanceIs(n, m);
    var v, t := m.from, Tallied(n, m);
    TalliedIs(n, m);
    CountedIs(n.pr[v], m.index, k);
    CountedLacks(n, n.pr[v], m.index, k);
    LacksByLog(n, t, t.pr[v]);
    CommitSupplies(t, v, v);
    PlainSupplies(t, v);
  }

  /** A commit index that an acceptance raises goes to every peer that may be sent something. */
  lemma {:induction false} RaisedCommitGoesOut(n: Node, m: Message, v: NodeId)
    requires n.role == Leader && Valid(n.log) && m.typ == MsgAppResp && !m.reject && m.term == n.term && m.from in n.pr
    requires Step(n, m).log.committed != n.log.committed
    requires v in n.pr && v != n.id && v != m.from && Lacks(n, n.pr[v])
    ensures Supplied(Step(n, m).msgs, n.id, n.term, v, Logical(n.log), n.pr[v].nextIndex - 1, Step(n, m).log.committed)
  {
    hide Supplied;
    hide Step;
    hide Counted;
    hide Lacks;
    hide Commits;
    hide MaybeCommit;
    hide BroadcastAppend;
    hide SendAppend;
    hide Logical;
    hide Valid;
    hide Tallied;
    AcceptanceIs(n, m);
    var t := Tallied(n, m);
    TalliedIs(n, m);
    LacksByLog(n, t, t.pr[v]);
    SendKeeps(t, m.from);
    CommitSupplies(t, v, m.from);
  }

  // ----- a rejection -----

  /** Where the next append to a peer starts after it rejected the one behind index i: a rejection that is
      out of date changes nothing; otherwise, behind what a replicating peer is known to hold, and for a
      probed one behind its last index, but in front of the place it rejected. */
  function Backed(p: Progress, i: nat, hint: nat): nat
    requires p.nextIndex >= 1
  {
    if p.state == Replicate then (if i <= p.matchIndex then p.nextIndex - 1 else p.matchIndex)
    else if i < p.nextIndex - 1 then p.nextIndex - 1
    else if i == 0 then 0
    else Min(hint, i - 1)
  }

  /** A rejection is answered with an append from there, and the peer is probed. */
  lemma {:induction false} RejectionIsAnswered(n: Node, m: Message)
    requires n.role == Leader && Valid(n.log) && m.typ == MsgAppResp && m.reject && m.term == n.term && m.from in n.pr
    requires var p := n.pr[m.from]; 1 <= p.nextIndex <= LastIndex(n.log) + 1 && p.matchIndex <= LastIndex(n.log)
    requires m.index <= LastIndex(n.log)
    ensures var n', prev := Step(n, m), Backed(n.pr[m.from], m.index, m.rejectHint);
            && m.from in n'.pr && n'.pr[m.from].state == Probe && n'.pr[m.from].paused && n'.pr[m.from].nextIndex == prev + 1
            && n'.log == n.log && n'.pr[m.from].matchIndex == n.pr[m.from].matchIndex
            && exists a :: a in n'.msgs && a.typ == MsgApp && a.from == n.id && a.to == m.from && a.term == n.term
                 && a.index == prev && RunFull(Logical(n.log), prev, a.logTerm, a.entries)
  {
    var v, p := m.from, BecomeProbe(MaybeDecr(n.pr[m.from], m.index, m.rejectHint));
    var n1 := n.(pr := n.pr[v := p]);
    assert p.nextIndex == Backed(n.pr[v], m.index, m.rejectHint) + 1;
    assert Step(n, m) == SendAppend(n1, v);
    SliceIsPrefix(n1.log, p.nextIndex, LastIndex(n1.log) + 1, n1.cfg.maxSize);
    hide Slice;
    assert Sends(n1, p);
    BatchIsFull(n1, v, p);
    hide Batch;
    hide RunFull;
    hide Step;
    hide MaybeDecr;
    assert AppendTo(n1, v, p) in SendAppend(n1, v).msgs;
  }

  // ----- proposals and taking office -----

  /** A proposal that the log takes goes to every peer that may be sent something, with whatever else it lacks. */
  lemma {:induction false} ProposalGoesOut(n: Node, data: seq<Byte>, v: NodeId)
    requires n.role == Leader && n.id in n.pr && Valid(n.log) && n.term >= 1 && n.log.committed <= LastIndex(n.log)
    requires v in n.pr && v != n.id && !n.pr[v].paused && (n.pr[v].state == Replicate ==> |n.pr[v].inflights| != n.pr[v].capacity)
    requires 1 <= n.pr[v].nextIndex <= LastIndex(n.log) + 1
    ensures var n' := Propose(n, data);
            var log := Logical(n.log) + [Entry(n.term, LastIndex(n.log) + 1, 0, data)];
            && Valid(n'.log) && Logical(n'.log) == log
            && Supplied(n'.msgs, n.id, n.term, v, log, n.pr[v].nextIndex - 1, n.log.committed)
  {
    hide Supplied;
    hide Logical;
    hide Numbered;
    hide TermAt;
    hide BroadcastAppend;
    var n1 := AppendOwn(n, data);
    OwnIsLast(n, data, v);
    hide AppendOwn;
    assert Lacks(n1, n1.pr[v]);
    hide LastIndex;
    BroadcastSupplies(n1, v);
    BroadcastKeeps(n1);
  }

  /** A proposal as the leader appends it. */
  lemma {:induction false} OwnIsLast(n: Node, data: seq<Byte>, v: NodeId)
    requires n.id in n.pr && Valid(n.log) && n.term >= 1 && n.log.committed <= LastIndex(n.log) && v in n.pr && v != n.id
    ensures var n1 := AppendOwn(n, data);
            && n1 == n.(log := n1.log, pr := n1.pr) && v in n1.pr && n1.pr[v] == n.pr[v]
            && Valid(n1.log) && n1.log.window != [] && LastIndex(n1.log) == LastIndex(n.log) + 1 && n1.log.committed == n.log.committed
            && Logical(n1.log) == Logical(n.log) + [Entry(n.term, LastIndex(n.log) + 1, 0, data)]
  {
    AppendExtendsIffCommitInside(n.log, Entry(n.term, LastIndex(n.log) + 1, 0, data));
    hide Logical;
    hide Numbered;
  }

  /** The first message of a new leader to a voter: behind the log it was elected with, and carrying the
      entry of its own that it adds, if it had any entries and the commit index is inside. */
  lemma {:induction false} OfficeIsAnnounced(n: Node, v: NodeId)
    requires Valid(n.log) && n.term >= 1 && v in n.cfg.voters && v != n.id
    ensures var n' := BecomeLeader(n);
            exists m :: m in n'.msgs && m.typ == MsgApp && m.from == n.id && m.to == v && m.term == n.term
                        && m.index == LastIndex(n.log) && m.logTerm == LastTerm(n.log) && m.commit == n.log.committed
                        && m.entries == if LastIndex(n.log) >= 1 && n.log.committed <= LastIndex(n.log)
                                        then [Entry(n.term, LastIndex(n.log) + 1, 0, [])] else []
  {
    var n1 := InOffice(n);
    OfficeBatch(n, v);
    hide InOffice;
    hide Batch;
    hide Sends;
    hide AfterSend;
    var m := AppendTo(n1, v, n1.pr[v]);
    hide AppendTo;
    assert m in BroadcastAppend(n1).msgs;
  }

  lemma {:induction false} OfficeBatch(n: Node, v: NodeId)
    requires Valid(n.log) && n.term >= 1 && v in n.cfg.voters && v != n.id
    ensures var n1, last := InOffice(n), LastIndex(n.log);
            && v in n1.pr && n1.id == n.id && n1.term == n.term && n1.log.committed == n.log.committed
            && n1.pr[v].nextIndex == last + 1 && Sends(n1, n1.pr[v])
            && TermAt(n1.log, last) == LastTerm(n.log)
            && Batch(n1, n1.pr[v]) == if last >= 1 && n.log.committed <= last then [Entry(n.term, last + 1, 0, [])] else []
  {
    var n1, last, e := InOffice(n), LastIndex(n.log), Entry(n.term, LastIndex(n.log) + 1, 0, []);
    OfficeTable(n, v);
    hide InOffice;
    hide Valid;
    hide TermAt;
    hide Slice;
    hide Append;
    if last >= 1 && n.log.committed <= last {
      OwnEntrySlice(n.log, e, n.cfg.maxSize);
    } else {
      assert Slice(n.log, last + 1, last + 1, n.cfg.maxSize) == Some([]) by { NothingInSlice(n.log, last + 1, n.cfg.maxSize); }
    }
  }

  lemma {:induction false} NothingInSlice(l: Log, lo: nat, maxSize: nat)
    ensures Slice(l, lo, lo, maxSize) == Some([])
  {
  }

  /** The table of a new leader, and its log. */
  lemma {:induction false} OfficeTable(n: Node, v: NodeId)
    requires v in n.cfg.voters && v != n.id
    ensures var n1, last := InOffice(n), LastIndex(n.log);
            && v in n1.pr && n1.id == n.id && n1.term == n.term && n1.cfg == n.cfg && n1.log.committed == n.log.committed
            && n1.pr[v] == Progress(0, last + 1, Probe, false, [], n.cfg.maxInflight)
            && n1.log == if last >= 1 && n.log.committed <= last then Append(n.log, [Entry(n.term, last + 1, 0, [])]) else n.log
  {
    assert v in Elements(n.cfg.voters);
    hide TermAt;
  }

  lemma {:induction false} OwnEntrySlice(l: Log, e: Entry, maxSize: nat)
    requires Valid(l) && l.committed <= LastIndex(l) && e.index == LastIndex(l) + 1
    ensures var l', last := Append(l, [e]), LastIndex(l);
            && LastIndex(l') == last + 1 && l'.committed == l.committed && TermAt(l', last) == TermAt(l, last)
            && Slice(l', last + 1, last + 2, maxSize) == Some([e])
  {
    var l', last := Append(l, [e]), LastIndex(l);
    assert l.window != [] ==> l'.window == l.window + [e];
    assert WindowPart(l', last + 1, last + 2) == [e];
    assert StoragePart(l', last + 1, last + 2, maxSize) == [];
    assert [] + [e] == [e];
  }

  // ----- timers -----

  /** A leader's timer: a heartbeat with its commit index to every other peer. */
  lemma {:induction false} HeartbeatsGoOut(n: Node, v: NodeId)
    requires n.role == Leader && v in n.pr && v != n.id
    ensures Message(MsgHeartbeat, v, n.id, n.term, commit := n.log.committed) in Timeout(n).msgs
  {
    assert HeartbeatTo(n, v) in BroadcastHeartbeat(n).msgs;
  }

  /** Anybody else's: a candidacy in the next term, with one's own vote, that every other voter hears of. */
  lemma {:induction false} CandidacyGoesOut(n: Node, v: NodeId)
    requires n.role != Leader && Quorum(n.cfg) > 1 && v in n.cfg.voters && v != n.id
    ensures var n' := Timeout(n);
            && n'.role == Candidate && n'.term == n.term + 1 && n'.vote == n.id && n'.votes == [n.id]
            && Message(MsgVote, v, n.id, n.term + 1, logTerm := LastTerm(n.log), index := LastIndex(n.log)) in n'.msgs
  {
    var c := BecomeCandidate(n);
    assert VoteRequest(c, v) in VoteRequests(c, c.cfg.voters);
  }

  // ----- a message of an earlier term -----

  /** Whoever still speaks for an earlier term is told the present one: an append, a heartbeat and a vote
      request are refused. */
  lemma {:induction false} StaleIsRefused(n: Node, m: Message)
    requires m.term < n.term && (m.typ == MsgApp || m.typ == MsgHeartbeat || m.typ == MsgVote)
    ensures var n' := Step(n, m);
            && n' == n.(msgs := n'.msgs)
            && exists a :: a in n'.msgs && a.from == n.id && a.to == m.from && a.term == n.term && a.reject
                 && a.typ == match m.typ case MsgApp => MsgAppResp case MsgHeartbeat => MsgHeartbeatResp case _ => MsgVoteResp
  {
    var a := match m.typ
      case MsgApp => Message(MsgAppResp, m.from, n.id, n.term, reject := true)
      case MsgHeartbeat => Message(MsgHeartbeatResp, m.from, n.id, n.term, reject := true)
      case _ => Message(MsgVoteResp, m.from, n.id, n.term, reject := true);
    assert a in Step(n, m).msgs;
  }

  // ----- a follower -----

  /** Takes the message as a follower of its term. */
  ghost predicate Follows(n: Node, m: Message) {
    m.term > n.term || (m.term == n.term && n.role == Follower)
  }

  /** An append is answered in its term: accepted through its last entry exactly if the log has its previous
      term at its previous index; refused, with the last index that this log has as a hint, otherwise. */
  lemma {:induction false} AppendIsAnswered(n: Node, m: Message)
    requires Follows(n, m) && m.typ == MsgApp
    ensures var n' := Step(n, m);
            && n'.role == Follower && n'.term == m.term && n'.lead == m.from
            && (if TermAt(n.log, m.index) == m.logTerm
                then Message(MsgAppResp, m.from, n.id, m.term, index := m.index + |m.entries|) in n'.msgs
                else n'.log == n.log
                     && Message(MsgAppResp, m.from, n.id, m.term, reject := true, index := m.index, rejectHint := LastIndex(n.log)) in n'.msgs)
  {
    var n1 := if m.term > n.term then BecomeFollower(n, m.term, 0) else n;
    assert AppendReply(n1, m) in StepFollower(n1, m).msgs;
    hide Reconcile;
  }

  /** A heartbeat is answered in its term. */
  lemma {:induction false} HeartbeatIsAnswered(n: Node, m: Message)
    requires Follows(n, m) && m.typ == MsgHeartbeat
    ensures var n' := Step(n, m);
            && n'.role == Follower && n'.term == m.term && n'.lead == m.from
            && Message(MsgHeartbeatResp, m.from, n.id, m.term) in n'.msgs
            && n'.log.committed == if m.commit > n.log.committed then Min(m.commit, LastIndex(n.log)) else n.log.committed
  {
  }

  /** The voter's log is no more up-to-date than the request says of the candidate's. */
  predicate NoBetter(n: Node, m: Message) {
    LastTerm(n.log) < m.logTerm || (LastTerm(n.log) == m.logTerm && LastIndex(n.log) <= m.index)
  }

  /** A vote request is answered in its term: with the vote exactly if the log is no better than the
      candidate's and no other candidate of the term has the vote. */
  lemma {:induction false} VoteIsAnswered(n: Node, m: Message)
    requires Follows(n, m) && m.typ == MsgVote
    ensures var n' := Step(n, m);
            var yes := NoBetter(n, m) && (m.term > n.term || n.vote == 0 || n.vote == m.from);
            && n'.role == Follower && n'.term == m.term && n'.log == n.log
            && Message(MsgVoteResp, m.from, n.id, m.term, reject := !yes) in n'.msgs
            && n'.vote == if yes then m.from else if m.term > n.term then 0 else n.vote
  {
    var n1 := if m.term > n.term then BecomeFollower(n, m.term, 0) else n;
    assert VoteReply(n1, m.from, !GrantsVote(n1, m)) in StepFollower(n1, m).msgs;
    hide LastTerm;
    hide LastIndex;
  }

  /** A proposal that reaches a follower of the same term goes on to the leader it knows. */
  lemma {:induction false} ProposalIsForwarded(n: Node, m: Message)
    requires n.role == Follower && m.term == n.term && m.typ == MsgPropose
    ensures var n' := Step(n, m);
            n'.log == n.log && n'.msgs == n.msgs + if n.lead == 0 then {} else {m.(to := n.lead)}
  {
  }

  // ----- a candidate -----

  /** A candidate that hears from a leader of its term follows it, and answers as a follower does. */
  lemma {:induction false} CandidateGivesWay(n: Node, m: Message)
    requires n.role == Candidate && m.term == n.term && (m.typ == MsgApp || m.typ == MsgHeartbeat)
    ensures var n' := Step(n, m);
            && n'.role == Follower && n'.term == n.term && n'.lead == m.from
            && exists a :: a in n'.msgs && a.from == n.id && a.to == m.from && a.term == n.term
                 && a.typ == if m.typ == MsgApp then MsgAppResp else MsgHeartbeatResp
  {
    var n1 := BecomeFollower(n, m.term, m.from);
    var a := if m.typ == MsgApp then AppendReply(n1, m) else Message(MsgHeartbeatResp, m.from, n.id, n.term);
    assert a in StepFollower(n1, m).msgs;
    hide MaybeAppend;
    hide CommitTo;
  }

  /** A vote counts once; the one that makes a majority of the voters puts the candidate in office. */
  lemma {:induction false} VoteIsCounted(n: Node, m: Message)
    requires n.role == Candidate && m.term == n.term && m.typ == MsgVoteResp
    ensures var n' := Step(n, m);
            var one := !m.reject && m.from !in n.votes;
            && n'.votes == n.votes + (if one then [m.from] else [])
            && (n'.role == Leader <==> one && 2 * (|n.votes| + 1) > |n.cfg.voters|)
            && (n'.role == Leader ==> n'.lead == n.id && n'.pr.Keys == Elements(n.cfg.voters) + {n.id})
            && n'.term == n.term
  {
    hide BroadcastAppend;
    var counted := n.(votes := n.votes + [m.from]);
    BroadcastRest(InOffice(counted));
    InOfficeIs(counted);
    hide InOffice;
  }

  lemma {:induction false} BroadcastRest(n: Node)
    ensures BroadcastAppend(n) == n.(pr := BroadcastAppend(n).pr, msgs := BroadcastAppend(n).msgs) && BroadcastAppend(n).pr.Keys == n.pr.Keys
  {
    hide Sends;
    hide AppendTo;
    hide AfterSend;
  }

  lemma {:induction false} InOfficeIs(n: Node)
    ensures var n' := InOffice(n);
            n'.role == Leader && n'.lead == n.id && n'.term == n.term && n'.votes == n.votes && n'.pr.Keys == Elements(n.cfg.voters) + {n.id}
  {
    hide Append;
    hide FreshProgress;
  }
}
