/** The records of the Raft layer: log entries, messages and roles.  Terms, indices and node ids
    are unbounded naturals; node id 0 means "nobody". */
module RaftTypes {
  import opened Bytes

  type NodeId = nat

  /** `kind` is the byte behind the source's EntryType enumeration. */
  datatype Entry = Entry(term: nat, index: nat, kind: Byte, data: seq<Byte>)

  datatype Role = Follower | Candidate | Leader

  datatype MessageType =
    | MsgPropose | MsgApp | MsgAppResp | MsgVote | MsgVoteResp | MsgHeartbeat | MsgHeartbeatResp

  /** One record for every RPC; fields a type does not use keep their default. */
  datatype Message = Message(
    typ: MessageType, to: NodeId, from: NodeId, term: nat,
    logTerm: nat := 0, index: nat := 0, commit: nat := 0,
    reject: bool := false, rejectHint: nat := 0, entries: seq<Entry> := [])

  datatype Option<+T> = None | Some(value: T)

  /** The elements of a sequence as a set. */
  function Elements<T>(s: seq<T>): set<T> { set x | x in s }

  lemma {:induction false} SubsetCount<T>(a: set<T>, b: set<T>)
    requires a <= b
    ensures |a| <= |b|
  {
    assert b == a + (b - a);
  }
}
