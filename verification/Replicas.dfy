/** Two replicas, whatever engines they run on and however their coins fall. */
module Replicas {
  import opened Bytes
  import opened BookSpec
  import opened BookInvariant
  import opened Engine
  import E = Engine
  import opened LobSpec
  import opened LobSnapshot
  import opened LobStateMachine
  import SkipBooks = SkipListOrderBook
  import MapBooks = MapOrderBook
  import opened R = RaftTypes

  /** Feeds a log of commands to one replica. */
  method RunLog(m: LobStateMachine, commands: seq<seq<Byte>>) returns (replies: seq<seq<Byte>>)
    requires m.Valid()
    modifies m, m.repr
    ensures m.Valid() && (forall o :: o in m.repr ==> o in old(m.repr) || fresh(o))
    ensures (replies, m.View()) == ApplyAll(old(m.View()), commands)
  {
    hide E.Engine.Valid;
    hide E.Engine.View;
    hide SkipBooks.SkipListOrderBook.Footprint;
    hide Apply;
    replies := [];
    for i := 0 to |commands|
      invariant m.Valid() && (forall o :: o in m.repr ==> o in old(m.repr) || fresh(o))
      invariant (replies, m.View()) == ApplyAll(old(m.View()), commands[..i])
    {
      assert commands[..i + 1][..i] == commands[..i];
      var reply := m.Apply(commands[i]);
      replies := replies + [reply];
    }
    assert commands[..|commands|] == commands;
  }

  /** Nothing is shared. */
  ghost predicate Apart(a: LobStateMachine, b: LobStateMachine)
    reads a, b
  {
    a != b && a.repr !! b.repr && a !in b.repr && b !in a.repr
  }

  /** Replicas in the same state give the same bytes for the same log, and stay in the same state. */
  method Lockstep(a: LobStateMachine, b: LobStateMachine, commands: seq<seq<Byte>>)
    returns (repliesA: seq<seq<Byte>>, repliesB: seq<seq<Byte>>)
    requires a.Valid() && b.Valid() && Apart(a, b) && a.View() == b.View()
    modifies a, b, a.repr, b.repr
    ensures a.Valid() && b.Valid() && Apart(a, b) && a.View() == b.View()
    ensures repliesA == repliesB && (repliesA, a.View()) == ApplyAll(old(a.View()), commands)
  {
    hide E.Engine.Valid;
    hide E.Engine.View;
    hide SkipBooks.SkipListOrderBook.Footprint;
    hide ApplyAll;
    repliesA := RunLog(a, commands);
    repliesB := RunLog(b, commands);
  }

  /** What a client can ask a replica for. */
  datatype Sight = Sight(snapshot: seq<Byte>, orders: seq<Order>, bids: seq<PriceLevel>, asks: seq<PriceLevel>)

  ghost function SightOf(s: Machine, maxLevels: nat): Sight {
    Sight(Snapshot(s), AllOrders(s.book), Depth(Buy, s.book.bids, maxLevels), Depth(Sell, s.book.asks, maxLevels))
  }

  method Inspect(m: LobStateMachine, maxLevels: nat) returns (seen: Sight)
    requires m.Valid()
    ensures seen == SightOf(m.View(), maxLevels)
  {
    hide E.Engine.Valid;
    hide E.Engine.View;
    hide SkipBooks.SkipListOrderBook.Footprint;
    hide Snapshot;
    hide AllOrders;
    hide Depth;
    var snapshot := m.Snapshot();
    var orders := m.book.AllOrders();
    var bids := m.book.Bids(maxLevels);
    var asks := m.book.Asks(maxLevels);
    seen := Sight(snapshot, orders, bids, asks);
  }

  /** ... and whoever asks either sees the same: snapshot bytes, order list and depth views. */
  method Observe(a: LobStateMachine, b: LobStateMachine, maxLevels: nat) returns (seenA: Sight, seenB: Sight)
    requires a.Valid() && b.Valid() && a.View() == b.View()
    ensures seenA == seenB == SightOf(a.View(), maxLevels)
  {
    hide E.Engine.Valid;
    hide E.Engine.View;
    hide SkipBooks.SkipListOrderBook.Footprint;
    hide SightOf;
    seenA := Inspect(a, maxLevels);
    seenB := Inspect(b, maxLevels);
  }

  /** A replica that is given the other's snapshot answers the rest of the log with the same bytes. */
  method CatchUp(a: LobStateMachine, b: LobStateMachine, commands: seq<seq<Byte>>)
    returns (repliesA: seq<seq<Byte>>, repliesB: seq<seq<Byte>>)
    requires a.Valid() && b.Valid() && Apart(a, b) && BookOk(a.View().book) && Fits(a.View())
    modifies a, b, a.repr, b.repr
    ensures a.Valid() && b.Valid() && Apart(a, b) && a.View() == b.View()
    ensures repliesA == repliesB && (repliesA, a.View()) == ApplyAll(old(a.View()), commands)
  {
    hide E.Engine.Valid;
    hide E.Engine.View;
    hide SkipBooks.SkipListOrderBook.Footprint;
    hide BookOk;
    hide Fits;
    hide ApplyAll;
    hide Restore;
    hide Snapshot;
    SnapshotRestores(a.View(), b.View());
    var bytes := a.Snapshot();
    b.Restore(bytes);
    repliesB := RunLog(b, commands);
    repliesA := RunLog(a, commands);
  }

  /** A replica on a map book and one on a skip-list book, fed the same log from the start. */
  method EnginesAgree(symbol: seq<Byte>, commands: seq<seq<Byte>>, maxLevels: nat)
    returns (repliesMap: seq<seq<Byte>>, repliesSkip: seq<seq<Byte>>, seenMap: Sight, seenSkip: Sight)
    ensures var (replies, end) := ApplyAll(Machine(1, EmptyBook(symbol)), commands);
            repliesMap == repliesSkip == replies && seenMap == seenSkip == SightOf(end, maxLevels)
  {
    var a := OnMap(symbol);
    var b := OnSkipList(symbol);
    hide E.Engine.Valid;
    hide E.Engine.View;
    hide SkipBooks.SkipListOrderBook.Footprint;
    hide ApplyAll;
    hide SightOf;
    repliesMap, repliesSkip := Lockstep(a, b, commands);
    seenMap, seenSkip := Observe(a, b, maxLevels);
  }

  method OnMap(symbol: seq<Byte>) returns (m: LobStateMachine)
    ensures fresh(m) && m.Valid() && fresh(m.repr) && m.View() == Machine(1, EmptyBook(symbol))
  {
    var t := new MapBooks.MapOrderBook(symbol);
    m := new LobStateMachine(Some(MapEngine(t)));
  }

  method OnSkipList(symbol: seq<Byte>) returns (m: LobStateMachine)
    ensures fresh(m) && m.Valid() && fresh(m.repr) && m.View() == Machine(1, EmptyBook(symbol))
  {
    var k := new SkipBooks.SkipListOrderBook(symbol);
    m := new LobStateMachine(Some(SkipEngine(k)));
  }
}
