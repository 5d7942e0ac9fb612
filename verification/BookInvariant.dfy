/** The book invariant and its preservation by every operation. */
module BookInvariant {
  import opened Bytes
  import opened BookSpec

  ghost predicate DistinctIds(os: seq<Order>) { forall i, j :: 0 <= i < j < |os| ==> os[i].id != os[j].id }

  /** o rests at (s, price) with a positive quantity, and the index says so. */
  ghost predicate OrderOk(s: Side, price: Int64, index: Index, o: Order) {
    o.side == s && o.price == price && 0 < o.quantity < I64 && o.id in index && index[o.id] == Location(s, price)
  }

  ghost predicate QueueOk(s: Side, price: Int64, index: Index, os: seq<Order>) {
    DistinctIds(os) && forall k :: 0 <= k < |os| ==> OrderOk(s, price, index, os[k])
  }

  /** No level is empty. */
  ghost predicate LevelsOk(s: Side, index: Index, m: Levels) {
    forall p :: p in m ==> m[p] != [] && QueueOk(s, p, index, m[p])
  }

  ghost predicate HasOrder(os: seq<Order>, id: UInt64) { exists k :: 0 <= k < |os| && os[k].id == id }

  /** The indexed place holds an order of that id. */
  ghost predicate Located(b: Book, id: UInt64)
    requires id in b.index
  {
    var loc := b.index[id];
    loc.price in LevelsOf(b, loc.side) && HasOrder(LevelsOf(b, loc.side)[loc.price], id)
  }

  /** Every indexed place holds an order of that id.  This much is true of any book the engines can
      reach, also one restored from arbitrary bytes, and keeps their operations defined. */
  ghost predicate Sound(b: Book) { forall id :: id in b.index ==> Located(b, id) }

  /** The index names exactly the resting orders, each id once, at its side and price; no level is
      empty and every quantity is positive. */
  ghost predicate BookOk(b: Book) {
    && LevelsOk(Buy, b.index, b.bids)
    && LevelsOk(Sell, b.index, b.asks)
    && Sound(b)
  }

  /** A queue only cares about the index at its own ids. */
  lemma {:induction false} QueueOkElsewhere(s: Side, price: Int64, index: Index, index': Index, os: seq<Order>)
    requires QueueOk(s, price, index, os)
    requires forall id :: id in index && index[id] == Location(s, price) ==> id in index' && index'[id] == index[id]
    ensures QueueOk(s, price, index', os)
  {
    forall k | 0 <= k < |os| ensures OrderOk(s, price, index', os[k]) {
      assert OrderOk(s, price, index, os[k]);
    }
  }

  lemma {:induction false} LevelsOkElsewhere(s: Side, index: Index, index': Index, m: Levels, m': Levels)
    requires LevelsOk(s, index, m)
    requires forall p :: p in m' ==> p in m && m'[p] == m[p]
    requires forall id :: id in index && index[id].side == s && index[id].price in m' ==> id in index' && index'[id] == index[id]
    ensures LevelsOk(s, index', m')
  {
    forall p | p in m' ensures m'[p] != [] && QueueOk(s, p, index', m'[p]) {
      QueueOkElsewhere(s, p, index, index', m[p]);
    }
  }

  /** index' differs from index only about ids at place loc. */
  ghost predicate AgreesBut(index: Index, index': Index, loc: Location) {
    && (forall id :: id in index && index[id] != loc ==> id in index' && index'[id] == index[id])
    && (forall id :: id in index' && index'[id] != loc ==> id in index && index[id] == index'[id])
  }

  lemma {:induction false} OneLevelReplaced(s: Side, index: Index, index': Index, m: Levels, price: Int64, os: seq<Order>)
    requires LevelsOk(s, index, m) && QueueOk(s, price, index', os) && AgreesBut(index, index', Location(s, price))
    ensures LevelsOk(s, index', SetLevel(m, price, os))
  {
    var m' := SetLevel(m, price, os);
    LevelsOkElsewhere(s, index, index', m, m - {price});
    forall p | p in m' ensures m'[p] != [] && QueueOk(s, p, index', m'[p]) {
      assert p != price ==> p in m - {price} && (m - {price})[p] == m'[p];
    }
  }

  /** Replacing one queue, with the index unchanged for all other places. */
  lemma {:induction false} QueueReplaced(b: Book, s: Side, price: Int64, os: seq<Order>, index': Index)
    requires BookOk(b) && QueueOk(s, price, index', os) && AgreesBut(b.index, index', Location(s, price))
    requires forall id :: id in index' && index'[id] == Location(s, price) ==> HasOrder(os, id)
    ensures BookOk(WithLevels(b, s, SetLevel(LevelsOf(b, s), price, os)).(index := index'))
  {
    hide HasOrder;
    hide QueueOk;
    var b' := WithLevels(b, s, SetLevel(LevelsOf(b, s), price, os)).(index := index');
    var o := Opposite(s);
    LevelsOkElsewhere(o, b.index, index', LevelsOf(b, o), LevelsOf(b, o));
    OneLevelReplaced(s, b.index, index', LevelsOf(b, s), price, os);
    forall id | id in index' ensures Located(b', id) {
      if index'[id] != Location(s, price) {
        assert Located(b, id);
      } else {
        assert HasOrder(os, id);
        assert os != [] by { NoOrderInEmpty(id); }
      }
    }
  }

  lemma {:induction false} NoOrderInEmpty(id: UInt64)
    ensures !HasOrder([], id)
  {
  }

  /** A queue with an order of a new id at its back. */
  lemma {:induction false} PushKeepsQueue(index: Index, queue: seq<Order>, o: Order)
    requires QueueOk(o.side, o.price, index, queue) && o.id !in index && 0 < o.quantity < I64
    ensures QueueOk(o.side, o.price, index[o.id := Location(o.side, o.price)], queue + [o])
    ensures HasOrder(queue + [o], o.id)
    ensures forall id :: HasOrder(queue, id) ==> HasOrder(queue + [o], id)
  {
    var index', os := index[o.id := Location(o.side, o.price)], queue + [o];
    forall k | 0 <= k < |os| ensures OrderOk(o.side, o.price, index', os[k]) {
      assert k < |queue| ==> os[k] == queue[k] && OrderOk(o.side, o.price, index, queue[k]);
    }
    forall i, j | 0 <= i < j < |os| ensures os[i].id != os[j].id {
      assert OrderOk(o.side, o.price, index, queue[i]);
    }
    assert os[|queue|].id == o.id;
    forall id | HasOrder(queue, id) ensures HasOrder(os, id) {
      var k :| 0 <= k < |queue| && queue[k].id == id;
      assert os[k].id == id;
    }
  }

  /** Putting an order of a new id at the back of its level. */
  lemma {:induction false} AddKeeps(b: Book, o: Order)
    requires BookOk(b) && o.id !in b.index && 0 < o.quantity < I64
    ensures BookOk(AddResting(b, o))
  {
    var m := LevelsOf(b, o.side);
    var queue := if o.price in m then m[o.price] else [];
    var index' := b.index[o.id := Location(o.side, o.price)];
    assert QueueOk(o.side, o.price, b.index, queue);
    PushKeepsQueue(b.index, queue, o);
    hide HasOrder;
    hide QueueOk;
    forall id | id in index' && index'[id] == Location(o.side, o.price) ensures HasOrder(queue + [o], id) {
      if id != o.id { assert Located(b, id); }
    }
    QueueReplaced(b, o.side, o.price, queue + [o], index');
    assert SetLevel(m, o.price, queue + [o]) == AddTo(m, o);
  }

  // ----- cancellation -----

  /** With distinct ids, removing the last order of an id removes the one order of that id. */
  lemma {:induction false} RemoveLastRemoves(os: seq<Order>, id: UInt64) returns (k: nat)
    requires DistinctIds(os) && HasOrder(os, id)
    ensures k < |os| && os[k].id == id && RemoveLast(os, id) == os[..k] + os[k + 1..]
    decreases |os|
  {
    var last := |os| - 1;
    if os[last].id == id {
      k := last;
      assert os[..k] + os[k + 1..] == os[..k];
    } else {
      assert HasOrder(os[..last], id) by {
        var i :| 0 <= i < |os| && os[i].id == id;
        assert os[..last][i].id == id;
      }
      k := RemoveLastRemoves(os[..last], id);
      assert os[..last][..k] + os[..last][k + 1..] + [os[last]] == os[..k] + os[k + 1..];
    }
  }

  /** The queue without the order of that id, against the index without the id. */
  lemma {:induction false} RemovalKeepsQueue(s: Side, price: Int64, index: Index, os: seq<Order>, id: UInt64)
    requires QueueOk(s, price, index, os) && HasOrder(os, id)
    ensures QueueOk(s, price, index - {id}, RemoveLast(os, id))
    ensures forall j :: j != id && HasOrder(os, j) ==> HasOrder(RemoveLast(os, id), j)
  {
    var k := RemoveLastRemoves(os, id);
    var os' := os[..k] + os[k + 1..];
    forall i | 0 <= i < |os'| ensures OrderOk(s, price, index - {id}, os'[i]) {
      assert os'[i] == os[if i < k then i else i + 1];
      assert OrderOk(s, price, index, os[if i < k then i else i + 1]);
    }
    forall j | j != id && HasOrder(os, j) ensures HasOrder(os', j) {
      var i :| 0 <= i < |os| && os[i].id == j;
      assert os'[if i < k then i else i - 1].id == j;
    }
  }

  lemma {:induction false} CancelKeeps(b: Book, id: UInt64)
    requires BookOk(b)
    ensures BookOk(Cancel(b, id)) && id !in Cancel(b, id).index
  {
    if id in b.index {
      hide HasOrder;
      hide RemoveLast;
      var loc := b.index[id];
      assert Located(b, id);
      var os := LevelsOf(b, loc.side)[loc.price];
      RemovalKeepsQueue(loc.side, loc.price, b.index, os, id);
      forall j | j in b.index - {id} && (b.index - {id})[j] == loc ensures HasOrder(RemoveLast(os, id), j) {
        assert Located(b, j);
      }
      QueueReplaced(b, loc.side, loc.price, RemoveLast(os, id), b.index - {id});
    }
  }

  lemma {:induction false} ModifyKeeps(b: Book, id: UInt64, price: Int64, quantity: Int64, sequence: UInt64)
    requires BookOk(b)
    ensures BookOk(Modify(b, id, price, quantity, sequence))
  {
    CancelKeeps(b, id);
    if id in b.index && quantity > 0 {
      AddKeeps(Cancel(b, id), Order(id, b.index[id].side, price, quantity, sequence));
    }
  }
}
