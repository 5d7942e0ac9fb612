/** What holds of the matching engine after every run of commands and restores. */
module LobTheorems {
  import opened Bytes
  import opened BookSpec
  import opened BookInvariant
  import opened BookMatching
  import opened BookTheorems
  import opened BookRules
  import opened OrderProtocol
  import WireBuffer
  import opened ResultProtocol
  import opened LobSpec
  import opened LobSnapshot
  import opened R = RaftTypes

  /** How a replica came about: created, fed one more command, or given another replica's snapshot. */
  datatype History =
    | Start(symbol: seq<Byte>)
    | Applied(before: History, data: seq<Byte>)
    | Restored(into: History, from: History)

  ghost function StateOf(h: History): Machine {
    match h
    case Start(symbol) => Machine(1, EmptyBook(symbol))
    case Applied(before, data) => Apply(StateOf(before), data).1
    case Restored(into, from) => Restore(StateOf(into), Snapshot(StateOf(from)))
  }

  /** Every snapshot taken along the way fits its length fields. */
  ghost predicate SnapshotsFit(h: History) {
    match h
    case Start(_) => true
    case Applied(before, _) => SnapshotsFit(before)
    case Restored(_, from) => SnapshotsFit(from) && Fits(StateOf(from))
  }

  /** The log length behind a replica's state: commands since creation, along the restored line. */
  function LogLength(h: History): nat {
    match h
    case Start(_) => 0
    case Applied(before, data) => LogLength(before) + (if data == [] then 0 else 1)
    case Restored(_, from) => LogLength(from)
  }

  // ----- one command -----

  lemma {:induction false} ApplyKeepsBook(s: Machine, data: seq<Byte>)
    requires BookOk(s.book)
    ensures BookOk(Apply(s, data).1.book)
  {
    hide BookOk;
    hide NewOrder;
    hide BookSpec.Modify;
    hide BookSpec.Cancel;
    var d := Decoded(data);
    if data != [] && d.Some? {
      match d.value
      case New(id, side, price, quantity) => NewOrderKeeps(s.book, id, side, price, quantity, s.nextSeq);
      case Cancel(id) => CancelKeeps(s.book, id);
      case Modify(id, price, quantity) => ModifyKeeps(s.book, id, price, quantity, s.nextSeq);
    }
  }

  lemma {:induction false} ApplyKeepsOrder(s: Machine, data: seq<Byte>)
    requires BookInOrder(s.book, s.nextSeq) && s.nextSeq + 1 < U64
    ensures var s' := Apply(s, data).1;
            s'.nextSeq == s.nextSeq + (if data == [] then 0 else 1) && BookInOrder(s'.book, s'.nextSeq)
  {
    hide BookInOrder;
    hide NewOrder;
    hide BookSpec.Modify;
    hide BookSpec.Cancel;
    var d := Decoded(data);
    if data != [] {
      LaterKeepsOrder(s.book, s.nextSeq, s.nextSeq + 1);
      if d.Some? {
        match d.value
        case New(id, side, price, quantity) => NewKeepsOrder(s.book, id, side, price, quantity, s.nextSeq);
        case Cancel(id) => CancelKeepsOrder(s.book, id, s.nextSeq + 1);
        case Modify(id, price, quantity) => ModifyKeepsOrder(s.book, id, price, quantity, s.nextSeq);
      }
    }
  }

  /** Any command but a MOD keeps an uncrossed book uncrossed. */
  lemma {:induction false} ApplyKeepsUncrossed(s: Machine, data: seq<Byte>)
    requires Uncrossed(s.book) && (Decoded(data).Some? ==> !Decoded(data).value.Modify?)
    ensures Uncrossed(Apply(s, data).1.book)
  {
    hide Uncrossed;
    hide NewOrder;
    hide BookSpec.Cancel;
    var d := Decoded(data);
    if data != [] && d.Some? {
      match d.value
      case New(id, side, price, quantity) => NewKeepsUncrossed(s.book, id, side, price, quantity, s.nextSeq);
      case Cancel(id) => CancelKeepsUncrossed(s.book, id);
    }
  }

  lemma {:induction false} EmptyCommandIgnored(s: Machine)
    ensures Apply(s, []).1 == s
  {
  }

  // ----- every run -----

  /** The index names exactly the resting orders, in every replica that can come about. */
  lemma {:induction false} BookInvariantHolds(h: History)
    ensures SnapshotsFit(h) ==> BookOk(StateOf(h).book)
    decreases h
  {
    if SnapshotsFit(h) {
      match h
      case Start(symbol) =>
      case Applied(before, data) =>
        BookInvariantHolds(before);
        ApplyKeepsBook(StateOf(before), data);
      case Restored(into, from) =>
        BookInvariantHolds(from);
        SnapshotRestores(StateOf(from), StateOf(into));
    }
  }

  /** The counter numbers the log and every queue stands in log order, restores or not, exactly until
      the 64-bit counter wraps. */
  lemma {:induction false} TimePriorityIsLogOrder(h: History)
    ensures SnapshotsFit(h) ==>
              (LogLength(h) + 1 < U64 <==>
               StateOf(h).nextSeq == LogLength(h) + 1 && BookInOrder(StateOf(h).book, LogLength(h) + 1))
    decreases h
  {
    hide Apply;
    hide Snapshot;
    hide Restore;
    hide BookOk;
    hide Fits;
    if SnapshotsFit(h) && LogLength(h) + 1 < U64 {
      match h
      case Start(symbol) =>
      case Applied(before, data) =>
        TimePriorityIsLogOrder(before);
        EmptyCommandIgnored(StateOf(before));
        if data != [] { ApplyKeepsOrder(StateOf(before), data); }
      case Restored(into, from) =>
        TimePriorityIsLogOrder(from);
        BookInvariantHolds(from);
        SnapshotRestores(StateOf(from), StateOf(into));
    }
  }

  // ----- at the wrap -----

  /** n commands that do not decode: they only move the counter. */
  function Junk(symbol: seq<Byte>, n: nat): History {
    if n == 0 then Start(symbol) else Applied(Junk(symbol, n - 1), [0])
  }

  lemma {:induction false} JunkDoesNotDecode()
    ensures Decoded([0]) == None
  {
    forall c ensures !WireBuffer.Stands([0], 0, Encode(c)) {
      assert Encode(c)[0] == Opcode(c);
    }
  }

  lemma {:induction false} JunkMovesTheCounter(symbol: seq<Byte>, n: nat)
    requires n + 1 < U64
    ensures var h := Junk(symbol, n); SnapshotsFit(h) && LogLength(h) == n && StateOf(h) == Machine(n + 1, EmptyBook(symbol))
  {
    if n > 0 {
      JunkMovesTheCounter(symbol, n - 1);
      JunkDoesNotDecode();
    }
  }

  /** A one-lot bid at 100. */
  function Bid(id: UInt64): Command { New(id, Buy, 100, 1) }

  function RestingBid(id: UInt64, sequence: UInt64): Order { Order(id, Buy, 100, 1, sequence) }

  /** Bids at 100 and nothing else. */
  function BidsOnly(symbol: seq<Byte>, queue: seq<Order>, index: Index): Book {
    Book(symbol, if queue == [] then map[] else map[100 := queue], map[], index)
  }

  lemma {:induction false} BidExecutes(b: Book, queue: seq<Order>, id: UInt64, sequence: UInt64)
    requires b == BidsOnly(b.symbol, queue, b.index) && id !in b.index
    ensures Execute(b, Bid(id), sequence).1 ==
            BidsOnly(b.symbol, queue + [RestingBid(id, sequence)], b.index[id := Location(Buy, 100)])
  {
    assert Match(Buy, 100, id, b.asks, 1, b.index) == Matched([], map[], 1, b.index);
    hide Match;
    hide EncodeResult;
  }

  lemma {:induction false} BidRests(s: Machine, queue: seq<Order>, id: UInt64)
    requires s.book == BidsOnly(s.book.symbol, queue, s.book.index) && id !in s.book.index
    ensures Apply(s, Encode(Bid(id))).1 ==
            Machine((s.nextSeq + 1) % U64,
                    BidsOnly(s.book.symbol, queue + [RestingBid(id, s.nextSeq)], s.book.index[id := Location(Buy, 100)]))
  {
    hide Apply;
    hide Execute;
    hide Decoded;
    hide Encode;
    hide BidsOnly;
    BidExecutes(s.book, queue, id, s.nextSeq);
    ApplyExecutes(s, Bid(id), []);
    assert Encode(Bid(id)) + [] == Encode(Bid(id));
  }

  lemma {:induction false} TwoBids(s: Machine)
    requires s == Machine(U64 - 1, EmptyBook(s.book.symbol))
    ensures var queue := [RestingBid(1, U64 - 1), RestingBid(2, 0)];
            var s2 := Apply(Apply(s, Encode(Bid(1))).1, Encode(Bid(2))).1;
            s2.nextSeq == 1 && s2.book.bids == map[100 := queue]
  {
    hide Apply;
    hide Encode;
    var first := RestingBid(1, U64 - 1);
    BidRests(s, [], 1);
    assert [] + [first] == [first];
    BidRests(Apply(s, Encode(Bid(1))).1, [first], 2);
    assert [first] + [RestingBid(2, 0)] == [first, RestingBid(2, 0)];
  }

  lemma {:induction false} ReversedQueue(b: Book, queue: seq<Order>)
    requires b.bids == map[100 := queue] && |queue| == 2 && queue[0].sequence > queue[1].sequence
    ensures forall next: nat :: !BookInOrder(b, next)
  {
    assert !Increasing(b.bids[100]);
  }

  /** A log whose last two entries are bids at one price, on both sides of the wrap: the queue keeps
      them as they came, and their sequence numbers now say the opposite. */
  lemma {:induction false} WrapReversesSequences(symbol: seq<Byte>, n: nat)
    requires n + 2 == U64
    ensures var h := Applied(Applied(Junk(symbol, n), Encode(Bid(1))), Encode(Bid(2)));
            && SnapshotsFit(h) && LogLength(h) == U64 && StateOf(h).nextSeq == 1
            && StateOf(h).book.bids == map[100 := [RestingBid(1, U64 - 1), RestingBid(2, 0)]]
            && forall next: nat :: !BookInOrder(StateOf(h).book, next)
  {
    JunkMovesTheCounter(symbol, n);
    hide Junk;
    hide Apply;
    hide BookInOrder;
    var h0 := Junk(symbol, n);
    TwoBids(StateOf(h0));
    var h := Applied(Applied(h0, Encode(Bid(1))), Encode(Bid(2)));
    assert StateOf(h) == Apply(Apply(StateOf(h0), Encode(Bid(1))).1, Encode(Bid(2))).1;
    ReversedQueue(StateOf(h).book, [RestingBid(1, U64 - 1), RestingBid(2, 0)]);
  }

  /** A resting order leaves every queue in order exactly when they were and it stands behind smaller
      sequence numbers. */
  lemma {:induction false} RestsInOrderExactlyWhen(m: Levels, o: Order)
    ensures var queue := if o.price in m then m[o.price] else [];
            (forall p :: p in AddTo(m, o) ==> Increasing(AddTo(m, o)[p])) <==>
            (forall p :: p in m ==> Increasing(m[p])) && (queue == [] || queue[|queue| - 1].sequence < o.sequence)
  {
    var queue := if o.price in m then m[o.price] else [];
    var m' := AddTo(m, o);
    PushedExactlyWhen(queue, o);
    hide Increasing;
    assert forall p :: p in m && p != o.price ==> p in m' && m'[p] == m[p];
    assert m'[o.price] == queue + [o];
    assert forall p :: p in m' && p != o.price ==> p in m;
    if o.price !in m { assert Increasing([]) by { EmptyIncreasing(); } }
  }

  lemma {:induction false} EmptyIncreasing()
    ensures Increasing([])
  {
  }

  lemma {:induction false} PushedExactlyWhen(queue: seq<Order>, o: Order)
    ensures Increasing(queue + [o]) <==> Increasing(queue) && (queue == [] || queue[|queue| - 1].sequence < o.sequence)
  {
    var all := queue + [o];
    if Increasing(all) {
      forall i, j | 0 <= i < j < |queue| ensures queue[i].sequence < queue[j].sequence {
        assert queue[i] == all[i] && queue[j] == all[j];
      }
      if queue != [] { assert all[|queue| - 1].sequence < all[|queue|].sequence; }
    }
  }

  ghost predicate NoModify(h: History) {
    match h
    case Start(_) => true
    case Applied(before, data) => NoModify(before) && (Decoded(data).Some? ==> !Decoded(data).value.Modify?)
    case Restored(_, from) => NoModify(from)
  }

  /** NEW and CXL alone never leave the book crossed. */
  lemma {:induction false} NeverCrossed(h: History)
    ensures SnapshotsFit(h) && NoModify(h) ==> Uncrossed(StateOf(h).book)
    decreases h
  {
    if SnapshotsFit(h) && NoModify(h) {
      match h
      case Start(symbol) =>
      case Applied(before, data) =>
        NeverCrossed(before);
        ApplyKeepsUncrossed(StateOf(before), data);
      case Restored(into, from) =>
        NeverCrossed(from);
        BookInvariantHolds(from);
        SnapshotRestores(StateOf(from), StateOf(into));
    }
  }

  /** Two replicas with the same state answer the same, so a restored one follows its origin for ever. */
  lemma {:induction false} RestoredReplicaFollows(into: History, from: History, commands: seq<seq<Byte>>)
    ensures SnapshotsFit(Restored(into, from)) ==>
              ApplyAll(StateOf(Restored(into, from)), commands) == ApplyAll(StateOf(from), commands)
  {
    if SnapshotsFit(Restored(into, from)) {
      BookInvariantHolds(from);
      SnapshotSimulates(StateOf(from), StateOf(into), commands);
    }
  }

  // ----- the reply to a NEW -----

  lemma {:induction false} ApplyExecutes(s: Machine, c: Command, tail: seq<Byte>)
    ensures var (reply, s') := Apply(s, Encode(c) + tail);
            (reply, s'.book) == Execute(s.book, c, s.nextSeq) && s'.nextSeq == (s.nextSeq + 1) % U64
  {
    CommandRoundTrip(c, tail);
    hide Execute;
  }

  /** The running total of an accepted NEW's fills never leaves 0..quantity, so a signed 64-bit sum
      cannot overflow. */
  lemma {:induction false} RunningTotals(b: Book, id: UInt64, side: Side, price: Int64, quantity: Int64, sequence: UInt64)
    requires BookOk(b) && id !in b.index && quantity > 0
    ensures var fills := NewOrder(b, id, side, price, quantity, sequence).0;
            forall k :: 0 <= k <= |fills| ==> 0 <= FillTotal(fills[..k]) <= FillTotal(fills) <= quantity
  {
    NewOrderTrades(b, id, side, price, quantity, sequence);
    hide *;
    var (fills, b') := NewOrder(b, id, side, price, quantity, sequence);
    var opp := Opposite(side);
    SweptAtMost(side, price, id, Flatten(opp, LevelsOf(b, opp)), quantity,
                Swept(fills, Flatten(opp, LevelsOf(b', opp)), quantity - FillTotal(fills)));
    forall k | 0 <= k <= |fills| ensures 0 <= FillTotal(fills[..k]) <= FillTotal(fills) {
      PartialTotals(fills, k);
    }
  }

  /** The reply to an accepted NEW reads back as its fills, whether the order is in the book now, and
      what the fills left of its quantity. */
  lemma {:induction false} NewReplyReadsBack(s: Machine, c: Command, tail: seq<Byte>)
    requires BookOk(s.book) && c.New? && c.quantity > 0 && c.id !in s.book.index
    ensures var (reply, s') := Apply(s, Encode(c) + tail);
            var (fills, book) := NewOrder(s.book, c.id, c.side, c.price, c.quantity, s.nextSeq);
            var remaining := c.quantity - FillTotal(fills);
            && s'.book == book && 0 <= remaining <= c.quantity
            && (|fills| < U32 ==> DecodedResult(reply) == Some(Reply(ToWires(fills), c.id in book.index, remaining)))
  {
    ApplyExecutes(s, c, tail);
    hide Apply;
    hide NewOrder;
    var (fills, book) := NewOrder(s.book, c.id, c.side, c.price, c.quantity, s.nextSeq);
    var remaining := c.quantity - FillTotal(fills);
    RestsExactlyWhen(s.book, c.id, c.side, c.price, c.quantity, s.nextSeq);
    hide BookOk;
    hide FillTotal;
    hide EncodeResult;
    hide DecodedResult;
    if |fills| < U32 { ResultRoundTrip(fills, remaining > 0, remaining); }
  }

  /** The order is in the book afterwards exactly when its fills left something. */
  lemma {:induction false} RestsExactlyWhen(b: Book, id: UInt64, side: Side, price: Int64, quantity: Int64, sequence: UInt64)
    requires BookOk(b) && id !in b.index && quantity > 0
    ensures var (fills, b') := NewOrder(b, id, side, price, quantity, sequence);
            0 <= FillTotal(fills) <= quantity && (FillTotal(fills) < quantity <==> id in b'.index)
  {
    NewOrderTrades(b, id, side, price, quantity, sequence);
    RunningTotals(b, id, side, price, quantity, sequence);
    hide *;
    var fills := NewOrder(b, id, side, price, quantity, sequence).0;
    assert fills[..|fills|] == fills;
  }
}
