/** How the runs that show where a guarantee ends begin: a node without a log is elected by one voter
    and itself, takes one proposal, and sends it. */
module FirstEntry {
  import opened Bytes
  import opened RaftTypes
  import opened LogSpec
  import opened ProgressSpec
  import opened NodeSpec
  import opened Cluster
  import opened Votes
  import opened Schedules

  const EMPTY := Log([], 0, [], 0, 0)

  /** Node x out of office, with no log. */
  ghost predicate Blank(cfg: Config, x: NodeId, h: Host) {
    && h.phase.Idle? && h.node.role != Leader
    && h.node == Node(x, cfg, h.node.term, h.node.vote, h.node.role, h.node.lead, h.node.votes, EMPTY, map[], h.node.msgs, 0, 0)
  }

  /** Every run begins with fresh hosts. */
  lemma {:induction false} Begins(cfg: Config, care: Care) returns (c: State)
    requires !care.After?
    ensures Reached(cfg, c, care) && c.hosts.Keys == Elements(cfg.voters)
    ensures forall x :: x in c.hosts ==> c.hosts[x] == FreshHost(x, cfg)
  {
    c := State(map x | x in Elements(cfg.voters) :: FreshHost(x, cfg), {});
    hide FreshHost;
    Starts(cfg, c, care);
  }

  // ----- the election -----

  /** The request of candidate x to voter y in term t. */
  function Ask(x: NodeId, y: NodeId, t: nat): Message { Message(MsgVote, y, x, t) }

  ghost predicate Stands(cfg: Config, x: NodeId, t: nat, h: Host) {
    h == Host(Node(x, cfg, t, x, Candidate, 0, [x], EMPTY, map[], h.node.msgs, 0, 0), h.disk, Idle)
  }

  lemma {:induction false} CandidateAsks(cfg: Config, x: NodeId, y: NodeId, h: Host)
    requires Quorum(cfg) > 1 && y in cfg.voters && x != y && Blank(cfg, x, h)
    ensures var h', t := HostAfter(h, TimerFires(x)), h.node.term + 1;
            Stands(cfg, x, t, h') && h'.disk == h.disk && Ask(x, y, t) in h'.node.msgs
  {
    var c := BecomeCandidate(h.node);
    assert VoteRequest(c, y) == Ask(x, y, c.term);
    assert VoteRequest(c, y) in VoteRequests(c, c.cfg.voters);
  }

  /** Voter y, with no log, after granting x its vote of term t. */
  function Voted(cfg: Config, y: NodeId, x: NodeId, t: nat, msgs: set<Message>): Node {
    Node(y, cfg, t, x, Follower, 0, [], EMPTY, map[], msgs, 0, 0)
  }

  /** A voter without a log votes for whoever asks in a later term. */
  lemma {:induction false} VoterGrants(cfg: Config, y: NodeId, m: Message, h: Host)
    requires m.typ == MsgVote && m.from != 0 && Blank(cfg, y, h) && h.node.msgs == {} && h.node.term < m.term
    ensures HostAfter(h, Deliver(y, m)) == Host(Voted(cfg, y, m.from, m.term, {GrantMsg(y, m.from, m.term)}), h.disk, Idle)
  {
    var n := BecomeFollower(h.node, m.term, 0);
    assert GrantsVote(n, m);
    assert StepFollower(n, m).msgs == {GrantMsg(y, m.from, m.term)};
  }

  /** The voter once its grant is out. */
  function Answered(cfg: Config, y: NodeId, x: NodeId, t: nat, file: seq<Byte>): Host {
    Host(Voted(cfg, y, x, t, {}), Disk(t, x, file), Idle)
  }

  lemma {:induction false} AnsweredIsBlank(cfg: Config, y: NodeId, x: NodeId, t: nat, file: seq<Byte>)
    ensures var h := Answered(cfg, y, x, t, file);
            Blank(cfg, y, h) && h.node.msgs == {} && h.node.term == t && h.node.role == Follower && h.disk == Disk(t, x, file)
  {
  }

  lemma {:induction false} FreshIsBlank(x: NodeId, cfg: Config)
    ensures Blank(cfg, x, FreshHost(x, cfg)) && FreshHost(x, cfg).node.msgs == {} && FreshHost(x, cfg).node.term == 0
    ensures FreshHost(x, cfg).disk.file == []
  {
  }

  /** A candidate stands and asks a voter. */
  lemma {:induction false} Asks(cfg: Config, c: State, x: NodeId, y: NodeId, care: Care) returns (h: Host)
    requires Quorum(cfg) > 1 && y in cfg.voters && x != y
    requires Reached(cfg, c, care) && x in c.hosts && Blank(cfg, x, c.hosts[x])
    ensures var t := c.hosts[x].node.term + 1;
            && Stands(cfg, x, t, h) && h.disk == Disk(t, x, c.hosts[x].disk.file)
            && Reached(cfg, State(c.hosts[x := h], c.net + {Ask(x, y, t)}), care)
  {
    CandidateAsks(cfg, x, y, c.hosts[x]);
    var h1, t := HostAfter(c.hosts[x], TimerFires(x)), c.hosts[x].node.term + 1;
    h := Rested(h1);
    assert AtRest(h1);
    hide HostAfter;
    hide Reached;
    hide AtRest;
    Unchanged(c, x);
    Acts(cfg, c, x, c.hosts[x], TimerFires(x), care);
    var c1 := c.(hosts := c.hosts[x := h1]);
    Speaks(cfg, c1, x, Ask(x, y, t), care);
    assert c1.hosts[x := h] == c.hosts[x := h];
  }

  /** The voter answers it. */
  lemma {:induction false} Answers(cfg: Config, c: State, y: NodeId, m: Message, care: Care)
    requires m.typ == MsgVote && m.from != 0 && m.to == y && m in c.net && Reached(cfg, c, care) && y in c.hosts
    requires Blank(cfg, y, c.hosts[y]) && c.hosts[y].node.msgs == {} && c.hosts[y].node.term < m.term
    ensures Reached(cfg, State(c.hosts[y := Answered(cfg, y, m.from, m.term, c.hosts[y].disk.file)], c.net + {GrantMsg(y, m.from, m.term)}), care)
  {
    VoterGrants(cfg, y, m, c.hosts[y]);
    var g := GrantMsg(y, m.from, m.term);
    var v := Host(Voted(cfg, y, m.from, m.term, {g}), c.hosts[y].disk, Idle);
    assert AtRest(v) && Rested(v) == Answered(cfg, y, m.from, m.term, c.hosts[y].disk.file);
    hide HostAfter;
    hide Reached;
    hide AtRest;
    Unchanged(c, y);
    Acts(cfg, c, y, c.hosts[y], Deliver(y, m), care);
    hide Blank;
    var c1 := c.(hosts := c.hosts[y := v]);
    Speaks(cfg, c1, y, g, care);
    hide Rested;
    assert c1.hosts[y := Rested(v)] == c.hosts[y := Rested(v)];
  }

  // ----- in office -----

  /** Leader x of term t with an empty log. */
  ghost predicate LeadsEmpty(cfg: Config, x: NodeId, y: NodeId, t: nat, h: Host) {
    var n := h.node;
    && h.phase.Idle? && n.id == x && n.cfg == cfg && n.role == Leader && n.term == t && n.log == EMPTY
    && n.readyLast == 0 && n.readyApplied == 0
    && n.pr.Keys == Elements(cfg.voters) && x in n.pr && y in n.pr
    && forall z :: z in n.pr ==> n.pr[z].matchIndex == 0
  }

  /** The empty append with which a new leader probes y. */
  function ProbeTo(x: NodeId, y: NodeId, t: nat): Message { Message(MsgApp, y, x, t) }

  ghost predicate Probes(cfg: Config, x: NodeId, y: NodeId, t: nat, h: Host) {
    LeadsEmpty(cfg, x, y, t, h) && h.node.pr[y] == Progress(0, 1, Probe, true, [], cfg.maxInflight)
  }

  lemma {:induction false} CandidateWins(cfg: Config, x: NodeId, y: NodeId, t: nat, h: Host)
    requires Quorum(cfg) == 2 && x in cfg.voters && y in cfg.voters && x != y && Stands(cfg, x, t, h)
    ensures var h' := HostAfter(h, Deliver(x, GrantMsg(y, x, t)));
            Probes(cfg, x, y, t, h') && h'.disk == h.disk && ProbeTo(x, y, t) in h'.node.msgs
  {
    var counted := h.node.(votes := [x] + [y]);
    assert Wins(h.node, GrantMsg(y, x, t));
    assert Step(h.node, GrantMsg(y, x, t)) == BecomeLeader(counted);
    assert Elements(cfg.voters) + {x} == Elements(cfg.voters);
    var led := InOffice(counted);
    assert LeadsEmpty(cfg, x, y, t, h.(node := led));
    assert Slice(led.log, 1, LastIndex(led.log) + 1, cfg.maxSize) == Some([]);
    assert Sends(led, led.pr[y]) && AppendTo(led, y, led.pr[y]) == ProbeTo(x, y, t);
    hide Slice;
  }

  /** Elected by y, x leads term t. */
  lemma {:induction false} TakesOffice(cfg: Config, c: State, x: NodeId, y: NodeId, t: nat, care: Care) returns (h: Host)
    requires Quorum(cfg) == 2 && x in cfg.voters && y in cfg.voters && x != y
    requires Reached(cfg, c, care) && x in c.hosts && Stands(cfg, x, t, c.hosts[x]) && GrantMsg(y, x, t) in c.net
    ensures Reached(cfg, c.(hosts := c.hosts[x := h]), care)
    ensures Probes(cfg, x, y, t, h) && h.disk == c.hosts[x].disk && ProbeTo(x, y, t) in h.node.msgs
  {
    CandidateWins(cfg, x, y, t, c.hosts[x]);
    h := HostAfter(c.hosts[x], Deliver(x, GrantMsg(y, x, t)));
    hide HostAfter;
    hide Reached;
    hide Probes;
    Unchanged(c, x);
    Acts(cfg, c, x, c.hosts[x], Deliver(x, GrantMsg(y, x, t)), care);
  }

  // ----- the probe is accepted -----

  /** Voter y once it follows x. */
  function Following(cfg: Config, y: NodeId, x: NodeId, t: nat, file: seq<Byte>): Host {
    Host(Voted(cfg, y, x, t, {}).(lead := x), Disk(t, x, file), Idle)
  }

  lemma {:induction false} FollowingIsBlank(cfg: Config, y: NodeId, x: NodeId, t: nat, file: seq<Byte>)
    ensures var h := Following(cfg, y, x, t, file);
            Blank(cfg, y, h) && h.node.msgs == {} && h.node.term == t && h.node.role == Follower && h.disk == Disk(t, x, file)
  {
  }

  /** It accepts the probe. */
  function Welcome(y: NodeId, x: NodeId, t: nat): Message { Message(MsgAppResp, x, y, t) }

  lemma {:induction false} FollowerWelcomes(cfg: Config, y: NodeId, x: NodeId, t: nat, file: seq<Byte>)
    requires t >= 1
    ensures var h' := HostAfter(Answered(cfg, y, x, t, file), Deliver(y, ProbeTo(x, y, t)));
            AtRest(h') && Welcome(y, x, t) in h'.node.msgs && Rested(h') == Following(cfg, y, x, t, file)
  {
    assert MaybeAppend(EMPTY, 0, 0, 0, []) == (EMPTY, true);
    assert AppendReply(Answered(cfg, y, x, t, file).node, ProbeTo(x, y, t)) == Welcome(y, x, t);
  }

  lemma {:induction false} NothingHeld(held: map<NodeId, nat>, quorum: nat)
    requires quorum >= 1 && forall z :: z in held ==> held[z] == 0
    ensures QuorumIndex(held, quorum) == 0
  {
    if exists k: nat :: IsQuorumIndex(held, k, quorum) {
      var k := QuorumIndex(held, quorum);
      assert IsQuorumIndex(held, k, quorum);
      assert k > 0 ==> Holders(held, k) == {};
    }
  }

  /** Leader x of term t that replicates to y from index 1 on. */
  ghost predicate Serves(cfg: Config, x: NodeId, y: NodeId, t: nat, h: Host) {
    LeadsEmpty(cfg, x, y, t, h) && h.node.pr[y] == Progress(0, 1, Replicate, false, [], cfg.maxInflight)
  }

  lemma {:induction false} LeaderReplicates(cfg: Config, x: NodeId, y: NodeId, t: nat, h: Host)
    requires x != y && Probes(cfg, x, y, t, h)
    ensures var h' := HostAfter(h, Deliver(x, Welcome(y, x, t))); Serves(cfg, x, y, t, h') && h'.disk == h.disk
  {
    var n := h.node;
    var p := BecomeReplicate(Update(n.pr[y], 0));
    var n1 := n.(pr := n.pr[y := p]);
    NothingHeld(Matches(n1), Quorum(cfg));
    assert !Commits(n1);
    hide QuorumIndex;
    assert Slice(n1.log, 1, LastIndex(n1.log) + 1, cfg.maxSize) == Some([]);
    assert !Sends(n1, p);
    assert AppendAccepted(n, Welcome(y, x, t)) == n1;
    hide Commits;
    hide AppendAccepted;
  }

  /** The leader sends its probe. */
  lemma {:induction false} ProbeIsSent(cfg: Config, c: State, x: NodeId, y: NodeId, t: nat, care: Care) returns (h: Host)
    requires t >= 1 && Reached(cfg, c, care) && x in c.hosts
    requires Probes(cfg, x, y, t, c.hosts[x]) && ProbeTo(x, y, t) in c.hosts[x].node.msgs
    ensures Reached(cfg, State(c.hosts[x := h], c.net + {ProbeTo(x, y, t)}), care)
    ensures Probes(cfg, x, y, t, h) && h.phase.Idle? && h.disk.file == c.hosts[x].disk.file && h.disk.term == t
  {
    h := Rested(c.hosts[x]);
    assert AtRest(c.hosts[x]) && Probes(cfg, x, y, t, h);
    hide Reached;
    hide AtRest;
    Speaks(cfg, c, x, ProbeTo(x, y, t), care);
  }

  /** The follower accepts it. */
  lemma {:induction false} ProbeIsWelcomed(cfg: Config, c: State, x: NodeId, y: NodeId, t: nat, care: Care)
    requires t >= 1 && Reached(cfg, c, care) && y in c.hosts && ProbeTo(x, y, t) in c.net
    requires c.hosts[y] == Answered(cfg, y, x, t, c.hosts[y].disk.file)
    ensures Reached(cfg, State(c.hosts[y := Following(cfg, y, x, t, c.hosts[y].disk.file)], c.net + {Welcome(y, x, t)}), care)
  {
    var v := c.hosts[y];
    FollowerWelcomes(cfg, y, x, t, v.disk.file);
    var v1 := HostAfter(v, Deliver(y, ProbeTo(x, y, t)));
    assert v.phase.Idle?;
    hide HostAfter;
    hide Reached;
    hide AtRest;
    hide Rested;
    hide Answered;
    hide Following;
    Unchanged(c, y);
    Acts(cfg, c, y, v, Deliver(y, ProbeTo(x, y, t)), care);
    var c1 := c.(hosts := c.hosts[y := v1]);
    Speaks(cfg, c1, y, Welcome(y, x, t), care);
    assert c1.hosts[y := Rested(v1)] == c.hosts[y := Rested(v1)];
  }

  /** The probe is sent, accepted, and the acceptance counted. */
  lemma {:induction false} ProbeIsAccepted(cfg: Config, c: State, x: NodeId, y: NodeId, t: nat, care: Care) returns (c': State)
    requires x != y && t >= 1 && Reached(cfg, c, care) && x in c.hosts && y in c.hosts
    requires Probes(cfg, x, y, t, c.hosts[x]) && ProbeTo(x, y, t) in c.hosts[x].node.msgs
    requires c.hosts[y] == Answered(cfg, y, x, t, c.hosts[y].disk.file)
    ensures Reached(cfg, c', care) && c'.hosts.Keys == c.hosts.Keys && c.net <= c'.net
    ensures forall z :: z in c.hosts && z != x && z != y ==> c'.hosts[z] == c.hosts[z]
    ensures Serves(cfg, x, y, t, c'.hosts[x]) && c'.hosts[x].disk.file == c.hosts[x].disk.file && c'.hosts[x].disk.term == t
    ensures c'.hosts[y] == Following(cfg, y, x, t, c.hosts[y].disk.file)
  {
    hide Reached;
    hide Answered;
    hide Following;
    hide Probes;
    hide Serves;
    hide HostAfter;
    var h := ProbeIsSent(cfg, c, x, y, t, care);
    LeaderReplicates(cfg, x, y, t, h);
    var c1 := State(c.hosts[x := h], c.net + {ProbeTo(x, y, t)});
    ProbeIsWelcomed(cfg, c1, x, y, t, care);
    var c2 := State(c1.hosts[y := Following(cfg, y, x, t, c.hosts[y].disk.file)], c1.net + {Welcome(y, x, t)});
    Unchanged(c2, x);
    Acts(cfg, c2, x, h, Deliver(x, Welcome(y, x, t)), care);
    c' := c2.(hosts := c2.hosts[x := HostAfter(h, Deliver(x, Welcome(y, x, t)))]);
  }

  // ----- the first proposal -----

  function First(t: nat, b: Byte): Entry { Entry(t, 1, 0, [b]) }

  /** The leader's append that carries it. */
  function Carry(x: NodeId, y: NodeId, t: nat, b: Byte): Message { Message(MsgApp, y, x, t, entries := [First(t, b)]) }

  /** Leader x of term t with one entry in its window, nothing committed, and an append of it to y. */
  ghost predicate LeadsFirst(cfg: Config, x: NodeId, y: NodeId, t: nat, b: Byte, h: Host) {
    var n := h.node;
    && h.phase.Idle? && n.id == x && n.cfg == cfg && n.role == Leader && n.term == t && n.log == Log([], 1, [First(t, b)], 0, 0)
    && n.readyLast == 0 && n.readyApplied == 0
    && n.pr.Keys == Elements(cfg.voters) && x in n.pr && y in n.pr
    && (forall z :: z in n.pr && z != x ==> n.pr[z].matchIndex == 0)
    && Carry(x, y, t, b) in n.msgs
  }

  lemma {:induction false} OwnFirst(cfg: Config, x: NodeId, y: NodeId, t: nat, b: Byte, h: Host)
    requires x != y && LeadsEmpty(cfg, x, y, t, h)
    ensures var n := AppendOwn(h.node, [b]);
            && n == h.node.(log := Log([], 1, [First(t, b)], 0, 0), pr := n.pr)
            && n.pr.Keys == h.node.pr.Keys && forall z :: z in n.pr && z != x ==> n.pr[z] == h.node.pr[z]
  {
  }

  lemma {:induction false} FirstBatch(n: Node, t: nat, b: Byte, p: Progress)
    requires n.log == Log([], 1, [First(t, b)], 0, 0) && p.nextIndex == 1 && !p.paused && !Full(p)
    ensures Sends(n, p) && NodeSpec.Batch(n, p) == [First(t, b)]
  {
    assert WindowPart(n.log, 1, 2) == [First(t, b)];
    assert [] + [First(t, b)] == [First(t, b)];
    assert Slice(n.log, 1, 2, n.cfg.maxSize) == Some([First(t, b)]);
  }

  lemma {:induction false} LeaderCarries(cfg: Config, x: NodeId, y: NodeId, t: nat, b: Byte, h: Host)
    requires x != y && cfg.maxInflight >= 1 && Serves(cfg, x, y, t, h)
    ensures var h' := HostAfter(h, ClientProposes(x, [b]));
            && LeadsFirst(cfg, x, y, t, b, h') && h'.disk == h.disk
            && h'.node.pr[y] == Progress(0, 1, Replicate, false, [1], cfg.maxInflight)
  {
    OwnFirst(cfg, x, y, t, b, h);
    hide AppendOwn;
    var n := AppendOwn(h.node, [b]);
    FirstBatch(n, t, b, n.pr[y]);
    assert AfterSend(n, n.pr[y]) == Progress(0, 1, Replicate, false, [1], cfg.maxInflight) by { assert [] + [1] == [1]; }
    hide Sends;
    hide NodeSpec.Batch;
    hide AfterSend;
    assert AppendTo(n, y, n.pr[y]) == Carry(x, y, t, b);
    assert Propose(h.node, [b]) == BroadcastAppend(n);
    ProgressOfOthers(n);
    hide First;
  }

  lemma {:induction false} ProgressOfOthers(n: Node)
    ensures var n' := BroadcastAppend(n);
            n'.pr.Keys == n.pr.Keys && forall z :: z in n.pr && z != n.id ==> n'.pr[z] == AfterSend(n, n.pr[z]) && n'.pr[z].matchIndex == n.pr[z].matchIndex
  {
    hide Sends;
    hide NodeSpec.Batch;
  }

  /** Elected by y, x takes office, finds y with an empty log too, and takes a proposal. */
  lemma {:induction false} OpensTerm(cfg: Config, c: State, x: NodeId, y: NodeId, t: nat, b: Byte, care: Care) returns (c': State)
    requires Quorum(cfg) == 2 && cfg.maxInflight >= 1 && x in cfg.voters && y in cfg.voters && x != y && t >= 1
    requires Reached(cfg, c, care) && x in c.hosts && y in c.hosts && Stands(cfg, x, t, c.hosts[x]) && GrantMsg(y, x, t) in c.net
    requires c.hosts[y] == Answered(cfg, y, x, t, c.hosts[y].disk.file)
    ensures Reached(cfg, c', care) && c'.hosts.Keys == c.hosts.Keys && c.net <= c'.net
    ensures forall z :: z in c.hosts && z != x && z != y ==> c'.hosts[z] == c.hosts[z]
    ensures LeadsFirst(cfg, x, y, t, b, c'.hosts[x]) && c'.hosts[x].disk.file == c.hosts[x].disk.file && c'.hosts[x].disk.term == t
    ensures c'.hosts[x].node.pr[y] == Progress(0, 1, Replicate, false, [1], cfg.maxInflight)
    ensures c'.hosts[y] == Following(cfg, y, x, t, c.hosts[y].disk.file)
  {
    hide Reached;
    hide Stands;
    hide Probes;
    hide Serves;
    hide Answered;
    hide Following;
    var h := TakesOffice(cfg, c, x, y, t, care);
    var c1 := ProbeIsAccepted(cfg, c.(hosts := c.hosts[x := h]), x, y, t, care);
    var h1 := c1.hosts[x];
    LeaderCarries(cfg, x, y, t, b, h1);
    hide HostAfter;
    Unchanged(c1, x);
    Acts(cfg, c1, x, h1, ClientProposes(x, [b]), care);
    c' := c1.(hosts := c1.hosts[x := HostAfter(h1, ClientProposes(x, [b]))]);
  }

  /** What a host holds that wrote one entry over an empty log. */
  lemma {:induction false} FirstIsWritten(x: NodeId, h: Host, t: nat, b: Byte)
    requires h.phase.Idle? && h.node.log == Log([], 1, [First(t, b)], 0, 0)
    ensures var s := Synchronised(x, h);
            && s.phase.Synced?
            && s.node == h.node.(log := Log([First(t, b)], 1, [First(t, b)], 0, 0), msgs := {}, readyLast := 1)
  {
    hide FileAfter;
    assert [] + [First(t, b)] == [First(t, b)];
    assert Persist(h.node.log, [First(t, b)]) == Log([First(t, b)], 1, [First(t, b)], 0, 0);
    hide Persist;
  }
}
