/** What the pointers of a valid skip list look like, level by level. */
module SkipShape {
  import opened Bytes
  import opened SkipHeights
  import opened SkipList

  /** Following level l from `from` visits exactly the nodes of s, in order, and then ends. */
  ghost predicate IsChain<V>(from: Node<V>, s: seq<Node<V>>, l: nat)
    reads from, s
  {
    && l < |from.forward| && from.forward[l] == At(s, 0)
    && forall i :: 0 <= i < |s| ==> l < |s[i].forward| && s[i].forward[l] == At(s, i + 1)
  }

  /** The nodes from place j on whose tower reaches level l. */
  ghost function Reaching<V>(all: seq<Node<V>>, hs: seq<nat>, l: nat, j: nat): seq<Node<V>>
    requires |all| == |hs| && j <= |all|
    decreases |all| - j
  {
    if j == |all| then []
    else if hs[j] >= l then [all[j]] + Reaching(all, hs, l, j + 1)
    else Reaching(all, hs, l, j + 1)
  }

  /** a is b with some elements left out. */
  ghost predicate IsSublist<T>(a: seq<T>, b: seq<T>) {
    if a == [] then true
    else if b == [] then false
    else (a[0] == b[0] && IsSublist(a[1..], b[1..])) || IsSublist(a, b[1..])
  }

  lemma {:induction false} SkipLow<V>(all: seq<Node<V>>, hs: seq<nat>, l: nat, j: nat, r: nat)
    requires |all| == |hs| && j <= r <= |all| && forall k :: j <= k < r ==> hs[k] < l
    ensures Reaching(all, hs, l, j) == Reaching(all, hs, l, r)
    decreases r - j
  {
    if j < r { SkipLow(all, hs, l, j + 1, r); }
  }

  lemma {:induction false} ChainBehind<V(0)>(list: SkipList<V>, l: nat, j: nat)
    requires list.Valid() && j < |list.all| && l <= list.hs[j]
    ensures IsChain(list.all[j], Reaching(list.all, list.hs, l, j + 1), l)
    decreases |list.all| - j
  {
    var all, hs := list.all, list.hs;
    var r := NextAt(hs, j, l);
    assert LinkOk(all, hs, list.Forwards(), j, l);
    SkipLow(all, hs, l, j + 1, r);
    if r < |all| {
      ChainBehind(list, l, r);
      var s, rest := Reaching(all, hs, l, j + 1), Reaching(all, hs, l, r + 1);
      assert s == [all[r]] + rest;
      forall i | 0 <= i < |s| ensures l < |s[i].forward| && s[i].forward[l] == At(s, i + 1) {
        assert i > 0 ==> s[i] == rest[i - 1];
      }
    }
  }

  lemma {:induction false} HigherIsSublist<V>(all: seq<Node<V>>, hs: seq<nat>, l: nat, j: nat)
    requires |all| == |hs| && j <= |all|
    ensures IsSublist(Reaching(all, hs, l + 1, j), Reaching(all, hs, l, j))
    decreases |all| - j
  {
    if j < |all| {
      HigherIsSublist(all, hs, l, j + 1);
    }
  }

  lemma {:induction false} EveryNodeReachesZero<V>(all: seq<Node<V>>, hs: seq<nat>, j: nat)
    requires |all| == |hs| && j <= |all|
    ensures Reaching(all, hs, 0, j) == all[j..]
    decreases |all| - j
  {
    if j < |all| { EveryNodeReachesZero(all, hs, j + 1); }
  }

  lemma {:induction false} ReachingMembers<V>(all: seq<Node<V>>, hs: seq<nat>, l: nat, j: nat)
    requires |all| == |hs| && j <= |all| && Distinct(all)
    ensures forall k :: 0 <= k < |all| ==> (all[k] in Reaching(all, hs, l, j) <==> j <= k && l <= hs[k])
    decreases |all| - j
  {
    if j < |all| { ReachingMembers(all, hs, l, j + 1); }
  }

  ghost function KeysTo<V>(all: seq<Node<V>>, j: nat): set<Int64>
    requires 1 <= j <= |all|
  {
    set i | 1 <= i < j :: all[i].key
  }

  lemma {:induction false} KeysCount<V>(descending: bool, all: seq<Node<V>>, j: nat)
    requires 1 <= j <= |all| && Sorted(descending, all)
    ensures |KeysTo(all, j)| == j - 1
    decreases j
  {
    if j > 1 {
      KeysCount(descending, all, j - 1);
      assert KeysTo(all, j) == KeysTo(all, j - 1) + {all[j - 1].key};
      assert forall i :: 1 <= i < j - 1 ==> Before(descending, all[i].key, all[j - 1].key);
    }
  }

  lemma {:induction false} SizeIsCount<V(0)>(list: SkipList<V>)
    requires list.Valid()
    ensures list.size == |list.contents|
  {
    KeysCount(list.descending, list.all, |list.all|);
    assert list.contents.Keys == KeysTo(list.all, |list.all|);
  }

  /** The shape of every valid list: each level is a chain of exactly the towers that reach it, level 0
      is all of them, each level is a sublist of the one below, a node stands on exactly the levels it
      has pointers for, nothing is above the current level, and size counts the keys. */
  lemma {:induction false} Levels<V(0)>(list: SkipList<V>, l: nat)
    requires list.Valid() && l <= list.maxLevel
    ensures IsChain(list.head, Reaching(list.all, list.hs, l, 1), l)
    ensures Reaching(list.all, list.hs, 0, 1) == list.all[1..]
    ensures IsSublist(Reaching(list.all, list.hs, l + 1, 1), Reaching(list.all, list.hs, l, 1))
    ensures forall k :: 1 <= k < |list.all| ==>
              (list.all[k] in Reaching(list.all, list.hs, l, 1) <==> l < |list.all[k].forward|)
    ensures l > list.currentLevel ==> list.head.forward[l] == null
    ensures list.size == |list.contents|
  {
    var all, hs := list.all, list.hs;
    ChainBehind(list, l, 0);
    EveryNodeReachesZero(all, hs, 1);
    HigherIsSublist(all, hs, l, 1);
    ReachingMembers(all, hs, l, 1);
    assert forall j :: 0 <= j < |all| ==> |list.Forwards()[j]| == hs[j] + 1;
    if l > list.currentLevel { SkipLow(all, hs, l, 1, |all|); }
    SizeIsCount(list);
    hide Holds;
    hide Linked;
    hide Sorted;
  }
}
