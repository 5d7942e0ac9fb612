/** The Raft node as the source has it: an object whose methods update term, vote, role, ballot,
    progress table, log and outgoing messages step by step.  Every method is proved equal to the
    function of the same name in NodeSpec, which is what the cluster theorems are about. */
module RawNode {
  import opened Bytes
  import opened RaftTypes
  import L = LogSpec
  import opened WriteAheadLog
  import opened RaftLog
  import P = ProgressSpec
  import opened NodeSpec
  import opened QuorumCommit
  import opened NodeLoops

  class RawNode {
    const id: NodeId
    const voters: seq<NodeId>
    const maxSizePerMsg: nat
    const maxInflightMsgs: nat
    const log: RaftLog

    var lead: NodeId
    var term: nat
    var vote: NodeId
    var role: Role
    var votes: seq<NodeId>
    var pr: map<NodeId, P.Progress>
    var msgs: seq<Message>
    var lastReadyLastIndex: nat
    var lastReadyApplied: nat

    /** A leader tracks exactly the voters. */
    ghost predicate Valid()
      reads this, log, log.storage, log.unstable
    {
      && log.Valid()
      && id in voters && (forall i, j :: 0 <= i < j < |voters| ==> voters[i] != voters[j])
      && (role == Leader ==> pr.Keys == Elements(voters))
    }

    ghost function View(): Node
      requires log.Valid()
      reads this, log, log.storage, log.unstable
    {
      Node(id, Config(voters, maxSizePerMsg, maxInflightMsgs), term, vote, role, lead, votes,
           log.View(), pr, Elements(msgs), lastReadyLastIndex, lastReadyApplied)
    }

    constructor (id: NodeId, voters: seq<NodeId>, maxSizePerMsg: nat, maxInflightMsgs: nat, storage: Wal)
      requires id in voters && forall i, j :: 0 <= i < j < |voters| ==> voters[i] != voters[j]
      requires storage.Valid()
      ensures Valid() && fresh(log) && fresh(log.unstable) && log.storage == storage
      ensures View() == Boot(id, Config(voters, maxSizePerMsg, maxInflightMsgs),
                             storage.hardState.term, storage.hardState.vote, storage.Stored())
    {
      this.id, this.voters, this.maxSizePerMsg, this.maxInflightMsgs := id, voters, maxSizePerMsg, maxInflightMsgs;
      log := new RaftLog(storage);
      lead, role, votes, pr, msgs := 0, Follower, [], map[], [];
      term, vote := storage.hardState.term, storage.hardState.vote;
      lastReadyLastIndex, lastReadyApplied := 0, 0;
    }

    function QuorumSize(): nat { |voters| / 2 + 1 }

    method Send(m: Message)
      requires Valid()
      modifies this`msgs
      ensures Valid() && View() == old(View()).(msgs := old(View()).msgs + {m})
    {
      msgs := msgs + [m];
      assert Elements(msgs) == old(Elements(msgs)) + {m};
    }

    // ----- role transitions -----

    method BecomeFollower(term: nat, lead: NodeId)
      requires Valid()
      modifies this
      ensures Valid() && View() == NodeSpec.BecomeFollower(old(View()), term, lead)
    {
      role := Follower;
      this.term := term;
      this.lead := lead;
      vote := 0;
      votes := [];
    }

    method BecomeCandidate()
      requires Valid()
      modifies this
      ensures Valid() && View() == NodeSpec.BecomeCandidate(old(View()))
    {
      role := Candidate;
      term := term + 1;
      lead := 0;
      vote := id;
      votes := [];
      votes := votes + [id];
    }

    /** Appends one entry of the own term and counts it as held by this node. */
    method AppendOwn(data: seq<Byte>)
      requires Valid() && id in pr
      modifies this, log.unstable
      ensures Valid() && View() == NodeSpec.AppendOwn(old(View()), data)
    {
      log.Append([Entry(term, log.LastIndex() + 1, 0, data)]);
      pr := pr[id := pr[id].(matchIndex := log.LastIndex(), nextIndex := log.LastIndex() + 1)];
    }

    /** Progress for every voter at the start of a term; its own counts as replicating. */
    method FreshTable() returns (table: map<NodeId, P.Progress>)
      requires Valid()
      ensures table == NodeSpec.FreshTable(View())
    {
      var last := log.LastIndex();
      table := map[];
      for i := 0 to |voters|
        invariant table.Keys == Elements(voters[..i])
        invariant forall x :: x in table ==> table[x] == P.Reset(P.Progress(0, 0, P.Probe, false, [], maxInflightMsgs), last)
      {
        table := table[voters[i] := P.Reset(P.Progress(0, 0, P.Probe, false, [], maxInflightMsgs), last)];
        assert Elements(voters[..i + 1]) == Elements(voters[..i]) + {voters[i]};
      }
      assert voters[..|voters|] == voters;
      table := table[id := P.BecomeReplicate(table[id].(matchIndex := last, nextIndex := last + 1))];
    }

    method BecomeLeader()
      requires Valid()
      modifies this, log.unstable
      ensures Valid() && View() == NodeSpec.BecomeLeader(old(View()))
    {
      hide NodeSpec.BroadcastAppend;
      hide NodeSpec.AppendOwn;
      hide NodeSpec.FreshTable;
      var table := FreshTable();
      role, lead, pr := Leader, id, table;
      assert pr.Keys == Elements(voters);
      if log.LastIndex() >= 1 {
        AppendOwn([]);
      }
      BroadcastAppend();
    }

    // ----- election -----

    /** Asks every other voter. */
    method RequestVotes()
      requires Valid()
      modifies this`msgs
      ensures Valid()
      ensures var c := old(View()); View() == c.(msgs := c.msgs + VoteRequests(c, c.cfg.voters))
    {
      hide VoteRequests;
      ghost var c := View();
      OneMoreRequest(c, voters, 0);
      for i := 0 to |voters|
        invariant Valid()
        invariant View() == c.(msgs := c.msgs + VoteRequests(c, voters[..i]))
      {
        OneMoreRequest(c, voters, i);
        if voters[i] != id {
          Send(Message(MsgVote, voters[i], id, term, logTerm := log.LastTerm(), index := log.LastIndex()));
        }
      }
      assert voters[..|voters|] == voters;
    }

    method Campaign()
      requires Valid()
      modifies this, log.unstable
      ensures Valid() && View() == NodeSpec.Campaign(old(View()))
    {
      hide NodeSpec.BecomeLeader;
      hide VoteRequests;
      BecomeCandidate();
      if QuorumSize() == 1 {
        BecomeLeader();
        return;
      }
      RequestVotes();
    }

    method PollVote(from: NodeId, granted: bool)
      requires Valid()
      modifies this, log.unstable
      ensures Valid() && View() == NodeSpec.PollVote(old(View()), from, granted)
    {
      if from in votes { return; }
      if granted {
        votes := votes + [from];
        if |votes| >= QuorumSize() {
          BecomeLeader();
        }
      }
    }

    // ----- replication -----

    method BroadcastAppend()
      requires Valid()
      modifies this`pr, this`msgs
      ensures Valid() && View() == NodeSpec.BroadcastAppend(old(View()))
    {
      hide NodeSpec.SendAppend;
      hide NodeSpec.BroadcastAppend;
      hide Broadcasting;
      ghost var n := View();
      var todo := pr.Keys;
      BroadcastEnds(n);
      assert n.pr.Keys - todo == {};
      while todo != {}
        invariant Valid() && todo <= n.pr.Keys
        invariant View() == Broadcasting(n, n.pr.Keys - todo)
        decreases todo
      {
        var to :| to in todo;
        ghost var done := n.pr.Keys - todo;
        if to != id {
          SendAppend(to);
          BroadcastOneMore(n, done, to);
        } else {
          BroadcastSelf(n, done);
        }
        todo := todo - {to};
        assert n.pr.Keys - todo == done + {to};
      }
      assert n.pr.Keys - todo == n.pr.Keys;
    }

    method SendAppend(to: NodeId)
      requires Valid()
      modifies this`pr, this`msgs
      ensures Valid() && View() == NodeSpec.SendAppend(old(View()), to)
    {
      hide L.Slice;
      ghost var n := View();
      if to !in pr { return; }
      var p := pr[to];
      if p.paused { return; }
      var next := p.nextIndex;
      if next < 1 { return; }
      var sliced := log.Slice(next, log.LastIndex() + 1, maxSizePerMsg);
      if sliced.None? { return; }
      var ents := sliced.value;
      assert ents == Batch(n, p);
      if ents == [] && p.state != P.Probe { return; }
      if p.state == P.Replicate && ents != [] {
        if P.Full(p) { return; }
        p := p.(inflights := p.inflights + [ents[|ents| - 1].index]);
      }
      var m := Message(MsgApp, to, id, term, logTerm := log.Term(next - 1), index := next - 1,
                       commit := log.committed, entries := ents);
      if p.state == P.Probe {
        p := p.(paused := true);
      }
      assert Sends(n, n.pr[to]) && p == AfterSend(n, n.pr[to]) && m == AppendTo(n, to, n.pr[to]);
      pr := pr[to := p];
      Send(m);
    }

    method BroadcastHeartbeat()
      requires Valid()
      modifies this`msgs
      ensures Valid() && View() == NodeSpec.BroadcastHeartbeat(old(View()))
    {
      ghost var n := View();
      var todo := pr.Keys;
      while todo != {}
        invariant Valid() && todo <= pr.Keys
        invariant View() == n.(msgs := n.msgs + set x | x in n.pr && x !in todo && x != n.id :: HeartbeatTo(n, x))
        decreases todo
      {
        var to :| to in todo;
        ghost var sent := set x | x in n.pr && x !in todo && x != n.id :: HeartbeatTo(n, x);
        if to != id {
          Send(Message(MsgHeartbeat, to, id, term, commit := log.committed));
        }
        todo := todo - {to};
        assert (set x | x in n.pr && x !in todo && x != n.id :: HeartbeatTo(n, x))
            == sent + if to != id then {HeartbeatTo(n, to)} else {};
      }
    }

    method Propose(data: seq<Byte>) returns (ok: bool)
      requires Valid()
      modifies this, log.unstable
      ensures Valid() && View() == NodeSpec.Propose(old(View()), data)
      ensures ok == (old(role) == Leader)
    {
      if role != Leader { return false; }
      AppendOwn(data);
      BroadcastAppend();
      return true;
    }

    // ----- commitment -----

    /** The match index of every tracked peer, in any order. */
    method MatchList() returns (matches: seq<nat>)
      requires Valid() && role == Leader
      ensures ListsHeld(Matches(View()), pr.Keys, matches)
    {
      hide ListsHeld;
      ghost var held := Matches(View());
      matches := [];
      var todo := pr.Keys;
      ListsNone(held);
      assert pr.Keys - todo == {};
      while todo != {}
        invariant todo <= pr.Keys && ListsHeld(held, pr.Keys - todo, matches)
        decreases todo
      {
        var x :| x in todo;
        ghost var done := pr.Keys - todo;
        ListsOneMore(held, done, matches, x);
        matches := matches + [if x == id then log.LastIndex() else pr[x].matchIndex];
        todo := todo - {x};
        assert pr.Keys - todo == done + {x};
      }
      assert pr.Keys - todo == pr.Keys;
    }

    method MaybeCommit() returns (moved: bool)
      requires Valid() && role == Leader
      modifies log`committed
      ensures Valid() && moved == Commits(old(View())) && View() == NodeSpec.MaybeCommit(old(View()))
    {
      hide ListsHeld;
      hide QuorumIndex;
      ghost var held := Matches(View());
      var matches := MatchList();
      var sorted := SortDescending(matches);
      assert held.Keys == pr.Keys && |held| == |held.Keys|;
      SortedListsHeld(held, matches, sorted);
      VotersCount(voters, pr.Keys);
      PickIsQuorumIndex(held, sorted, QuorumSize());
      var k := sorted[QuorumSize() - 1];
      if k > log.committed && log.Term(k) == term {
        moved := log.MaybeCommit(k, term);
        return true;
      }
      return false;
    }

    // ----- message handling -----

    method Step(m: Message)
      requires Valid()
      requires m.typ == MsgApp ==> forall i :: 0 <= i < |m.entries| ==> m.entries[i].index == m.index + 1 + i
      modifies this, log, log.unstable
      ensures Valid() && View() == NodeSpec.Step(old(View()), m)
    {
      if m.term > term {
        BecomeFollower(m.term, 0);
      }
      if m.term < term {
        if m.typ == MsgApp || m.typ == MsgHeartbeat {
          Send(Message(if m.typ == MsgApp then MsgAppResp else MsgHeartbeatResp, m.from, id, term, reject := true));
        } else if m.typ == MsgVote {
          Send(Message(MsgVoteResp, m.from, id, term, reject := true));
        }
        return;
      }
      match role
      case Leader => StepLeader(m);
      case Candidate => StepCandidate(m);
      case Follower => StepFollower(m);
    }

    method StepLeader(m: Message)
      requires Valid() && role == Leader
      modifies this, log, log.unstable
      ensures Valid() && View() == NodeSpec.StepLeader(old(View()), m)
    {
      match m.typ
      case MsgPropose =>
        var _ := Propose(if m.entries == [] then [] else m.entries[0].data);
      case MsgAppResp =>
        if m.from !in pr { return; }
        if m.reject {
          pr := pr[m.from := P.BecomeProbe(P.MaybeDecr(pr[m.from], m.index, m.rejectHint))];
          SendAppend(m.from);
        } else {
          var p := P.Update(pr[m.from], m.index);
          if p.state == P.Probe { p := P.BecomeReplicate(p); }
          pr := pr[m.from := p];
          var moved := MaybeCommit();
          if moved { BroadcastAppend(); }
          if pr[m.from].state == P.Replicate { SendAppend(m.from); }
        }
      case MsgHeartbeatResp =>
        if m.from !in pr { return; }
        if pr[m.from].state == P.Replicate {
          SendAppend(m.from);
        } else if pr[m.from].state == P.Probe && !pr[m.from].paused {
          SendAppend(m.from);
        }
      case _ =>
    }

    method StepCandidate(m: Message)
      requires Valid() && role == Candidate
      requires m.typ == MsgApp ==> forall i :: 0 <= i < |m.entries| ==> m.entries[i].index == m.index + 1 + i
      modifies this, log, log.unstable
      ensures Valid() && View() == NodeSpec.StepCandidate(old(View()), m)
    {
      match m.typ
      case MsgVoteResp => PollVote(m.from, !m.reject);
      case MsgApp =>
        if m.term == term { BecomeFollower(m.term, m.from); }
        StepFollower(m);
      case MsgHeartbeat =>
        if m.term == term { BecomeFollower(m.term, m.from); }
        StepFollower(m);
      case _ =>
    }

    method StepFollower(m: Message)
      requires Valid() && role != Leader
      requires m.typ == MsgApp ==> forall i :: 0 <= i < |m.entries| ==> m.entries[i].index == m.index + 1 + i
      modifies this, log, log.unstable
      ensures Valid() && View() == NodeSpec.StepFollower(old(View()), m)
    {
      hide L.MaybeAppend;
      hide L.LastIndex;
      hide L.LastTerm;
      match m.typ
      case MsgPropose =>
        if lead == 0 { return; }
        Send(m.(to := lead));
      case MsgApp =>
        lead := m.from;
        var ok := log.MaybeAppend(m.index, m.logTerm, m.commit, m.entries);
        var resp := Message(MsgAppResp, m.from, id, term, reject := !ok);
        if ok {
          resp := resp.(index := m.index + |m.entries|);
        } else {
          resp := resp.(index := m.index, rejectHint := log.LastIndex());
        }
        Send(resp);
      case MsgHeartbeat =>
        lead := m.from;
        if m.commit > log.committed { log.CommitTo(m.commit); }
        Send(Message(MsgHeartbeatResp, m.from, id, term));
      case MsgVote =>
        var logUpToDate := m.logTerm > log.LastTerm() || (m.logTerm == log.LastTerm() && m.index >= log.LastIndex());
        var grant := (vote == 0 || vote == m.from) && logUpToDate;
        Send(Message(MsgVoteResp, m.from, id, term, reject := !grant));
        if grant { vote := m.from; }
      case _ =>
    }

    /** The transport reports a peer as unreachable. */
    method Unreachable(peer: NodeId)
      requires Valid()
      modifies this`pr
      ensures Valid() && View() == NodeSpec.Unreachable(old(View()), peer)
    {
      if peer in pr {
        pr := pr[peer := P.BecomeProbe(pr[peer])];
      }
    }

    /** The tick that completes a timeout. */
    method Timeout()
      requires Valid()
      modifies this, log.unstable
      ensures Valid() && View() == NodeSpec.Timeout(old(View()))
    {
      if role == Leader { BroadcastHeartbeat(); } else { Campaign(); }
    }

    // ----- the Ready cycle -----

    method Poll() returns (rd: Ready)
      requires Valid()
      modifies this`msgs, this`lastReadyLastIndex, this`lastReadyApplied
      ensures Valid() && rd == MakeReady(old(View())) && View() == AfterPoll(old(View()))
    {
      hide L.Slice;
      var entries := log.unstable.entries;
      if entries != [] { lastReadyLastIndex := entries[|entries| - 1].index; }
      var committed := log.NextCommittedEntries();
      rd := Ready(entries, term, vote, log.committed, Elements(msgs), committed);
      msgs := [];
      if committed != [] { lastReadyApplied := committed[|committed| - 1].index; }
    }

    method Advance()
      requires Valid()
      modifies this`lastReadyLastIndex, this`lastReadyApplied, log, log.unstable
      ensures Valid() && View() == NodeSpec.Advance(old(View()))
    {
      if lastReadyLastIndex > 0 {
        log.StableTo(lastReadyLastIndex);
        lastReadyLastIndex := 0;
      }
      if lastReadyApplied > 0 {
        log.AppliedTo(lastReadyApplied);
        lastReadyApplied := 0;
      }
    }
  }

  function OneRequest(n: Node, peer: NodeId): set<Message> {
    if peer != n.id then {VoteRequest(n, peer)} else {}
  }

  lemma {:induction false} OneMoreRequest(n: Node, peers: seq<NodeId>, i: nat)
    ensures VoteRequests(n, peers[..0]) == {}
    ensures i < |peers| ==>
              VoteRequests(n, peers[..i + 1]) == VoteRequests(n, peers[..i]) + OneRequest(n, peers[i])
  {
  }

  lemma {:induction false} VotersCount(voters: seq<NodeId>, keys: set<NodeId>)
    requires keys == Elements(voters) && forall i, j :: 0 <= i < j < |voters| ==> voters[i] != voters[j]
    ensures |keys| == |voters|
    decreases |voters|
  {
    if voters != [] {
      var k := |voters| - 1;
      VotersCount(voters[..k], Elements(voters[..k]));
      assert keys == Elements(voters[..k]) + {voters[k]};
    }
  }
}
