/** One Raft node as a value, and every operation of the node as a function on it.
    `msgs` is the set of messages waiting to be sent; the network may reorder and duplicate, so
    neither order nor multiplicity is kept.  Timers are left to the environment. */
module NodeSpec {
  import opened Bytes
  import opened RaftTypes
  import opened LogSpec
  import opened ProgressSpec

  datatype Config = Config(voters: seq<NodeId>, maxSize: nat, maxInflight: nat)

  datatype Node = Node(
    id: NodeId, cfg: Config,
    term: nat, vote: NodeId, role: Role, lead: NodeId, votes: seq<NodeId>,
    log: Log, pr: map<NodeId, Progress>, msgs: set<Message>,
    readyLast: nat, readyApplied: nat)

  /** What poll() hands to the application. */
  datatype Ready = Ready(entries: seq<Entry>, term: nat, vote: NodeId, commit: nat,
                         msgs: set<Message>, committed: seq<Entry>)

  function Quorum(cfg: Config): nat { |cfg.voters| / 2 + 1 }

  /** A node starting from what is on disk: term and vote, and the stored log. */
  function Boot(id: NodeId, cfg: Config, term: nat, vote: NodeId, stored: seq<Entry>): Node {
    Node(id, cfg, term, vote, Follower, 0, [], Log(stored, 0, [], 0, 0), map[], {}, 0, 0)
  }

  // ----- messages a node builds -----

  function VoteRequest(n: Node, to: NodeId): Message {
    Message(MsgVote, to, n.id, n.term, logTerm := LastTerm(n.log), index := LastIndex(n.log))
  }

  function VoteReply(n: Node, to: NodeId, reject: bool): Message {
    Message(MsgVoteResp, to, n.id, n.term, reject := reject)
  }

  function HeartbeatTo(n: Node, to: NodeId): Message {
    Message(MsgHeartbeat, to, n.id, n.term, commit := n.log.committed)
  }

  // ----- role transitions -----

  function BecomeFollower(n: Node, term: nat, lead: NodeId): Node {
    n.(role := Follower, term := term, lead := lead, vote := 0, votes := [])
  }

  function BecomeCandidate(n: Node): Node {
    n.(role := Candidate, term := n.term + 1, lead := 0, vote := n.id, votes := [n.id])
  }

  function FreshProgress(n: Node, id: NodeId): Progress {
    var last := LastIndex(n.log);
    if id == n.id
    then Progress(last, last + 1, Replicate, false, [], n.cfg.maxInflight)
    else Progress(0, last + 1, Probe, false, [], n.cfg.maxInflight)
  }

  /** Append one entry of the node's own term and count it as its own. */
  function AppendOwn(n: Node, data: seq<Byte>): Node
    requires n.id in n.pr
  {
    var log := Append(n.log, [Entry(n.term, LastIndex(n.log) + 1, 0, data)]);
    n.(log := log,
       pr := n.pr[n.id := n.pr[n.id].(matchIndex := LastIndex(log), nextIndex := LastIndex(log) + 1)])
  }

  function FreshTable(n: Node): (pr: map<NodeId, Progress>)
    ensures pr.Keys == Elements(n.cfg.voters) + {n.id}
  {
    map id | id in Elements(n.cfg.voters) + {n.id} :: FreshProgress(n, id)
  }

  /** In office, with a fresh progress table and, unless the log is empty, an entry of its own. */
  function InOffice(n: Node): Node {
    var led := n.(role := Leader, lead := n.id, pr := FreshTable(n));
    if LastIndex(n.log) >= 1 then AppendOwn(led, []) else led
  }

  function BecomeLeader(n: Node): Node { BroadcastAppend(InOffice(n)) }

  // ----- replication -----

  /** The entries an append to a peer at progress p would carry. */
  function Batch(n: Node, p: Progress): seq<Entry> {
    match Slice(n.log, p.nextIndex, LastIndex(n.log) + 1, n.cfg.maxSize)
    case None => []
    case Some(es) => es
  }

  /** Whether sendAppend sends; a peer below the first index needs a snapshot, and there is none. */
  predicate Sends(n: Node, p: Progress) {
    && !p.paused
    && p.nextIndex >= 1
    && Slice(n.log, p.nextIndex, LastIndex(n.log) + 1, n.cfg.maxSize).Some?
    && (Batch(n, p) == [] ==> p.state == Probe)
    && (p.state == Replicate ==> !Full(p))
  }

  function AppendTo(n: Node, to: NodeId, p: Progress): Message
    requires p.nextIndex >= 1
  {
    Message(MsgApp, to, n.id, n.term, logTerm := TermAt(n.log, p.nextIndex - 1), index := p.nextIndex - 1,
            commit := n.log.committed, entries := Batch(n, p))
  }

  function AfterSend(n: Node, p: Progress): Progress {
    if !Sends(n, p) then p
    else if p.state == Probe then p.(paused := true)
    else var es := Batch(n, p);
         p.(inflights := p.inflights + [es[|es| - 1].index])
  }

  function SendAppend(n: Node, to: NodeId): Node {
    if to !in n.pr || !Sends(n, n.pr[to]) then n
    else n.(pr := n.pr[to := AfterSend(n, n.pr[to])], msgs := n.msgs + {AppendTo(n, to, n.pr[to])})
  }

  function BroadcastAppend(n: Node): Node {
    n.(pr := map id | id in n.pr :: if id == n.id then n.pr[id] else AfterSend(n, n.pr[id]),
       msgs := n.msgs + set id | id in n.pr && id != n.id && Sends(n, n.pr[id]) :: AppendTo(n, id, n.pr[id]))
  }

  function BroadcastHeartbeat(n: Node): Node {
    n.(msgs := n.msgs + set id | id in n.pr && id != n.id :: HeartbeatTo(n, id))
  }

  /** A leader always tracks itself, so the second test only keeps the function total. */
  function Propose(n: Node, data: seq<Byte>): Node {
    if n.role != Leader || n.id !in n.pr then n else BroadcastAppend(AppendOwn(n, data))
  }

  // ----- commitment -----

  /** What each tracked peer is known to hold; the leader holds its own log. */
  function Matches(n: Node): map<NodeId, nat> {
    map id | id in n.pr :: if id == n.id then LastIndex(n.log) else n.pr[id].matchIndex
  }

  function Holders(held: map<NodeId, nat>, k: nat): set<NodeId> { set id | id in held && held[id] >= k }

  ghost predicate HasQuorum(held: map<NodeId, nat>, k: nat, quorum: nat) { |Holders(held, k)| >= quorum }

  /** k is the largest index that a quorum holds. */
  ghost predicate IsQuorumIndex(held: map<NodeId, nat>, k: nat, quorum: nat) {
    HasQuorum(held, k, quorum) && !HasQuorum(held, k + 1, quorum)
  }

  /** The largest quorum-held index; a table smaller than a quorum has none and yields 0. */
  ghost function QuorumIndex(held: map<NodeId, nat>, quorum: nat): nat {
    if exists k: nat :: IsQuorumIndex(held, k, quorum)
    then var k: nat :| IsQuorumIndex(held, k, quorum); k
    else 0
  }

  ghost predicate Commits(n: Node) {
    var k := QuorumIndex(Matches(n), Quorum(n.cfg));
    k > n.log.committed && TermAt(n.log, k) == n.term
  }

  ghost function MaybeCommit(n: Node): Node {
    if Commits(n) then n.(log := n.log.(committed := QuorumIndex(Matches(n), Quorum(n.cfg)))) else n
  }

  // ----- election -----

  function VoteRequests(n: Node, peers: seq<NodeId>): set<Message> {
    set id | id in peers && id != n.id :: VoteRequest(n, id)
  }

  function Campaign(n: Node): Node {
    var c := BecomeCandidate(n);
    if Quorum(n.cfg) == 1 then BecomeLeader(c)
    else c.(msgs := c.msgs + VoteRequests(c, c.cfg.voters))
  }

  function PollVote(n: Node, from: NodeId, granted: bool): Node {
    if from in n.votes || !granted then n
    else
      var counted := n.(votes := n.votes + [from]);
      if |counted.votes| >= Quorum(n.cfg) then BecomeLeader(counted) else counted
  }

  // ----- message handling -----

  /** A peer the transport reports as unreachable goes back to probing. */
  function Unreachable(n: Node, peer: NodeId): Node {
    if peer in n.pr then n.(pr := n.pr[peer := BecomeProbe(n.pr[peer])]) else n
  }

  function StaleReply(n: Node, m: Message): Node {
    match m.typ
    case MsgApp => n.(msgs := n.msgs + {Message(MsgAppResp, m.from, n.id, n.term, reject := true)})
    case MsgHeartbeat => n.(msgs := n.msgs + {Message(MsgHeartbeatResp, m.from, n.id, n.term, reject := true)})
    case MsgVote => n.(msgs := n.msgs + {VoteReply(n, m.from, true)})
    case _ => n
  }

  ghost function AppendRejected(n: Node, m: Message): Node
    requires m.from in n.pr
  {
    SendAppend(n.(pr := n.pr[m.from := BecomeProbe(MaybeDecr(n.pr[m.from], m.index, m.rejectHint))]), m.from)
  }

  ghost function AppendAccepted(n: Node, m: Message): Node
    requires m.from in n.pr
  {
    var p := Update(n.pr[m.from], m.index);
    var n1 := n.(pr := n.pr[m.from := if p.state == Probe then BecomeReplicate(p) else p]);
    var n2 := if Commits(n1) then BroadcastAppend(MaybeCommit(n1)) else n1;
    if n2.pr[m.from].state == Replicate then SendAppend(n2, m.from) else n2
  }

  ghost function StepLeader(n: Node, m: Message): Node {
    match m.typ
    case MsgPropose => Propose(n, if m.entries == [] then [] else m.entries[0].data)
    case MsgAppResp =>
      if m.from !in n.pr then n
      else if m.reject then AppendRejected(n, m) else AppendAccepted(n, m)
    case MsgHeartbeatResp =>
      if m.from in n.pr && (n.pr[m.from].state == Replicate || !n.pr[m.from].paused) then SendAppend(n, m.from)
      else n
    case _ => n
  }

  /** Accepted: the last index of the message.  Rejected: its previous index and our last one. */
  function AppendReply(n: Node, m: Message): Message {
    var (log, ok) := MaybeAppend(n.log, m.index, m.logTerm, m.commit, m.entries);
    Message(MsgAppResp, m.from, n.id, n.term, reject := !ok,
            index := if ok then m.index + |m.entries| else m.index,
            rejectHint := if ok then 0 else LastIndex(log))
  }

  function StepFollower(n: Node, m: Message): Node {
    match m.typ
    case MsgPropose => if n.lead == 0 then n else n.(msgs := n.msgs + {m.(to := n.lead)})
    case MsgApp =>
      n.(lead := m.from, log := MaybeAppend(n.log, m.index, m.logTerm, m.commit, m.entries).0,
         msgs := n.msgs + {AppendReply(n, m)})
    case MsgHeartbeat =>
      n.(lead := m.from, log := CommitTo(n.log, m.commit),
         msgs := n.msgs + {Message(MsgHeartbeatResp, m.from, n.id, n.term)})
    case MsgVote =>
      var grant := GrantsVote(n, m);
      n.(msgs := n.msgs + {VoteReply(n, m.from, !grant)}, vote := if grant then m.from else n.vote)
    case _ => n
  }

  predicate GrantsVote(n: Node, m: Message) {
    && (n.vote == 0 || n.vote == m.from)
    && (m.logTerm > LastTerm(n.log) || (m.logTerm == LastTerm(n.log) && m.index >= LastIndex(n.log)))
  }

  function StepCandidate(n: Node, m: Message): Node {
    match m.typ
    case MsgVoteResp => PollVote(n, m.from, !m.reject)
    case MsgApp => StepFollower(if m.term == n.term then BecomeFollower(n, m.term, m.from) else n, m)
    case MsgHeartbeat => StepFollower(if m.term == n.term then BecomeFollower(n, m.term, m.from) else n, m)
    case _ => n
  }

  ghost function Dispatch(n: Node, m: Message): Node {
    match n.role
    case Leader => StepLeader(n, m)
    case Candidate => StepCandidate(n, m)
    case Follower => StepFollower(n, m)
  }

  ghost function Step(n: Node, m: Message): Node {
    if m.term > n.term then Dispatch(BecomeFollower(n, m.term, 0), m)
    else if m.term < n.term then StaleReply(n, m)
    else Dispatch(n, m)
  }

  /** A timer fires: the leader sends heartbeats, anyone else starts an election. */
  function Timeout(n: Node): Node {
    if n.role == Leader then BroadcastHeartbeat(n) else Campaign(n)
  }

  // ----- the Ready cycle -----

  function MakeReady(n: Node): Ready {
    Ready(n.log.window, n.term, n.vote, n.log.committed, n.msgs, NextCommitted(n.log))
  }

  function AfterPoll(n: Node): Node {
    var rd := MakeReady(n);
    n.(msgs := {},
       readyLast := if rd.entries == [] then n.readyLast else rd.entries[|rd.entries| - 1].index,
       readyApplied := if rd.committed == [] then n.readyApplied else rd.committed[|rd.committed| - 1].index)
  }

  function Advance(n: Node): Node {
    var stable := if n.readyLast > 0 then StableTo(n.log, n.readyLast) else n.log;
    var done := if n.readyApplied > 0 then AppliedTo(stable, n.readyApplied) else stable;
    n.(log := done, readyLast := 0, readyApplied := 0)
  }
}
