/** Soundness of the index is kept on every book, good or not. */
module BookSoundness {
  import opened Bytes
  import opened BookSpec
  import opened BookInvariant
  import opened BookTheorems

  lemma {:induction false} AddKeepsSound(b: Book, o: Order)
    requires Sound(b)
    ensures Sound(AddResting(b, o))
  {
    var b' := AddResting(b, o);
    var m := LevelsOf(b, o.side);
    var queue := if o.price in m then m[o.price] else [];
    forall id | id in b'.index ensures Located(b', id) {
      if id == o.id {
        assert (queue + [o])[|queue|].id == id;
      } else {
        assert Located(b, id);
        if b.index[id] == Location(o.side, o.price) {
          var k :| 0 <= k < |queue| && queue[k].id == id;
          assert (queue + [o])[k].id == id;
        }
      }
    }
  }

  /** Removing one id's last order leaves every other id's orders. */
  lemma {:induction false} RemoveLastKeepsOthers(os: seq<Order>, id: UInt64, other: UInt64)
    requires HasOrder(os, other) && other != id
    ensures HasOrder(RemoveLast(os, id), other)
    decreases |os|
  {
    var last := |os| - 1;
    var k :| 0 <= k < |os| && os[k].id == other;
    if os[last].id == id {
      assert os[..last][k].id == other;
    } else if k == last {
      var r := RemoveLast(os[..last], id);
      assert (r + [os[last]])[|r|].id == other;
    } else {
      assert os[..last][k].id == other;
      RemoveLastKeepsOthers(os[..last], id, other);
      var r := RemoveLast(os[..last], id);
      var i :| 0 <= i < |r| && r[i].id == other;
      assert (r + [os[last]])[i].id == other;
    }
  }

  lemma {:induction false} CancelKeepsSound(b: Book, id: UInt64)
    requires Sound(b)
    ensures Sound(Cancel(b, id))
  {
    if id in b.index {
      hide RemoveLast;
      hide HasOrder;
      var loc, b' := b.index[id], Cancel(b, id);
      assert Located(b, id);
      forall j | j in b'.index ensures Located(b', j) {
        assert Located(b, j);
        if b.index[j] == loc {
          RemoveLastKeepsOthers(LevelsOf(b, loc.side)[loc.price], id, j);
          NoOrderInEmpty(j);
        }
      }
    }
  }

  /** Whoever is still in the index after a drain still has an order in the queue. */
  lemma {:induction false} DrainKeepsHolders(taker: Side, takerId: UInt64, os: seq<Order>, remaining: int, index: Index)
    ensures var d := Drain(taker, takerId, os, remaining, index);
            Subindex(d.index, index) && (forall id :: id in d.index && HasOrder(os, id) ==> HasOrder(d.left, id))
            && (forall id :: id in index && !HasOrder(os, id) ==> id in d.index)
    decreases |os|
  {
    if remaining > 0 && os != [] {
      var q := Min(remaining, os[0].quantity);
      forall id | HasOrder(os, id) && id != os[0].id ensures HasOrder(os[1..], id) {
        var k :| 0 <= k < |os| && os[k].id == id;
        assert os[1..][k - 1].id == id;
      }
      assert HasOrder(os, os[0].id);
      forall id | HasOrder(os[1..], id) ensures HasOrder(os, id) {
        var k :| 0 <= k < |os[1..]| && os[1..][k].id == id;
        assert os[k + 1].id == id;
      }
      if os[0].quantity - q <= 0 {
        DrainKeepsHolders(taker, takerId, os[1..], remaining - q, index - {os[0].id});
      } else {
        var os' := [os[0].(quantity := os[0].quantity - q)] + os[1..];
        forall id | HasOrder(os, id) ensures HasOrder(os', id) {
          var k :| 0 <= k < |os| && os[k].id == id;
          assert os'[k].id == id;
        }
      }
    }
  }

  lemma {:induction false} DrainKeepsSound(b: Book, taker: Side, takerId: UInt64, p: Int64, remaining: int)
    requires Sound(b) && p in LevelsOf(b, Opposite(taker))
    ensures var opp := Opposite(taker);
            var d := Drain(taker, takerId, LevelsOf(b, opp)[p], remaining, b.index);
            Sound(Replaced(b, opp, SetLevel(LevelsOf(b, opp), p, d.left), d.index))
  {
    hide HasOrder;
    var opp := Opposite(taker);
    var os := LevelsOf(b, opp)[p];
    DrainKeepsHolders(taker, takerId, os, remaining, b.index);
    hide Drain;
    var d := Drain(taker, takerId, os, remaining, b.index);
    var b' := Replaced(b, opp, SetLevel(LevelsOf(b, opp), p, d.left), d.index);
    forall id | id in d.index ensures Located(b', id) {
      assert Located(b, id);
      if b.index[id] == Location(opp, p) { NoOrderInEmpty(id); }
    }
  }
}
