/** The skip list: nodes with a key, a value and a row of forward pointers that insertion and removal
    relink in place.  The height of a new node is decided by coin flips, which are left open: every
    statement holds for every outcome. */
module SkipList {
  import opened Bytes
  import opened SkipHeights

  class Node<V> {
    const key: Int64
    var value: V
    var forward: seq<Node?<V>>

    constructor (key: Int64, level: nat, value: V)
      ensures this.key == key && this.value == value && forward == seq(level + 1, _ => null)
    {
      this.key, this.value := key, value;
      forward := seq(level + 1, _ => null);
    }
  }

  predicate Before(descending: bool, a: Int64, b: Int64) { if descending then a > b else a < b }

  /** The node at place r; null behind the end. */
  function At<V>(all: seq<Node<V>>, r: nat): Node?<V> { if r < |all| then all[r] else null }

  /** Level l of the node at place j leads to the next node that reaches level l. */
  ghost predicate LinkOk<V>(all: seq<Node<V>>, hs: seq<nat>, fw: seq<seq<Node?<V>>>, j: nat, l: nat)
    requires |hs| == |all| == |fw| && j < |all|
  {
    l < |fw[j]| && fw[j][l] == At(all, NextAt(hs, j, l))
  }

  /** Every node has as many pointers as its height asks for, and all of them are right. */
  ghost predicate Linked<V>(all: seq<Node<V>>, hs: seq<nat>, fw: seq<seq<Node?<V>>>) {
    && |hs| == |all| == |fw|
    && (forall j :: 0 <= j < |all| ==> |fw[j]| == hs[j] + 1)
    && (forall j, l :: 0 <= j < |all| && 0 <= l <= hs[j] ==> LinkOk(all, hs, fw, j, l))
  }

  /** Place 0 is the head; from place 1 on the keys are in strict order. */
  ghost predicate Sorted<V>(descending: bool, all: seq<Node<V>>) {
    forall i, j :: 1 <= i < j < |all| ==> Before(descending, all[i].key, all[j].key)
  }

  ghost predicate Distinct<V>(all: seq<Node<V>>) { forall i, j :: 0 <= i < j < |all| ==> all[i] != all[j] }

  /** The first place from c on whose key is not before `key`. */
  ghost function CutFrom<V>(descending: bool, all: seq<Node<V>>, key: Int64, c: nat): (r: nat)
    requires 1 <= c <= |all|
    ensures c <= r <= |all|
    ensures forall k :: c <= k < r ==> Before(descending, all[k].key, key)
    ensures r < |all| ==> !Before(descending, all[r].key, key)
    decreases |all| - c
  {
    if c < |all| && Before(descending, all[c].key, key) then CutFrom(descending, all, key, c + 1) else c
  }

  /** Keys before the cut are before `key`, the others are not. */
  lemma {:induction false} CutSeparates<V>(descending: bool, all: seq<Node<V>>, key: Int64)
    requires |all| >= 1 && Sorted(descending, all)
    ensures var c := CutFrom(descending, all, key, 1);
            forall k :: 1 <= k < |all| ==> (Before(descending, all[k].key, key) <==> k < c)
  {
    var c := CutFrom(descending, all, key, 1);
    forall k | c <= k < |all| ensures !Before(descending, all[k].key, key) {
      assert k > c ==> Before(descending, all[c].key, all[k].key);
    }
  }

  /** A key is in the row exactly when it stands at its cut. */
  lemma {:induction false} KeyAtCut<V>(descending: bool, all: seq<Node<V>>, key: Int64)
    requires |all| >= 1 && Sorted(descending, all)
    ensures var c := CutFrom(descending, all, key, 1);
            && (c < |all| ==> (all[c].key == key <==> !Before(descending, key, all[c].key)))
            && (HasKey(all, key) <==> c < |all| && all[c].key == key)
  {
    CutSeparates(descending, all, key);
    var c := CutFrom(descending, all, key, 1);
    forall j | 1 <= j < |all| && all[j].key == key ensures j == c {}
  }

  /** The pointers after level 0..i-1 of `node` were linked in behind the places `upd`. */
  ghost predicate HalfInserted<V>(all: seq<Node<V>>, hs: seq<nat>, fw: seq<seq<Node?<V>>>, node: Node<V>, upd: seq<nat>, i: nat) {
    && |hs| == |all| == |fw| && i <= |upd|
    && (forall j :: 0 <= j < |all| ==> |fw[j]| == hs[j] + 1)
    && (forall j, l :: 0 <= j < |all| && 0 <= l <= hs[j] ==>
          fw[j][l] == if l < i && upd[l] == j then node else At(all, NextAt(hs, j, l)))
  }

  /** The row as a whole: order, size and levels. */
  ghost predicate RowOk<V>(maxLevel: nat, descending: bool, head: Node<V>, all: seq<Node<V>>, hs: seq<nat>, size: nat, top: nat) {
    RowInOrder(maxLevel, descending, head, all, hs, size) && TopIs(hs, top) && top <= maxLevel
  }

  ghost predicate RowInOrder<V>(maxLevel: nat, descending: bool, head: Node<V>, all: seq<Node<V>>, hs: seq<nat>, size: nat) {
    && |all| == |hs| >= 1 && all[0] == head && hs[0] == maxLevel
    && Distinct(all) && Sorted(descending, all)
    && size == |all| - 1
  }

  /** Every tower behind the head is at most `top` high, and one of them is, unless `top` is 0. */
  ghost predicate TopIs(hs: seq<nat>, top: nat) {
    && (forall j :: 1 <= j < |hs| ==> hs[j] <= top)
    && (top == 0 || exists j :: 1 <= j < |hs| && hs[j] == top)
  }

  /** The row stands for the map m: its keys are m's keys, with these values. */
  ghost predicate Holds<V>(all: seq<Node<V>>, vals: seq<V>, m: map<Int64, V>) {
    && |vals| == |all|
    && (forall j :: 1 <= j < |all| ==> all[j].key in m && m[all[j].key] == vals[j])
    && (forall k :: k in m ==> HasKey(all, k))
  }

  ghost function NodeSet<V>(all: seq<Node<V>>): set<Node<V>> { set n | n in all }

  ghost predicate HasKey<V>(all: seq<Node<V>>, k: Int64) { exists j :: 1 <= j < |all| && all[j].key == k }

  lemma {:induction false} AtInserted<V>(all: seq<Node<V>>, cut: nat, node: Node<V>, r: nat)
    requires cut <= |all|
    ensures At(Inserted(all, cut, node), r) == if r < cut then At(all, r) else if r == cut then node else At(all, r - 1)
  {
  }

  /** Per level, `update` is the last node before the cut, and `upd` its place. */
  ghost predicate Updates<V>(all: seq<Node<V>>, hs: seq<nat>, cut: nat, update: seq<Node?<V>>, upd: seq<nat>, h: nat) {
    && |hs| == |all| && |upd| == h + 1 <= |update|
    && forall l :: 0 <= l <= h ==> upd[l] < |all| && LastBefore(hs, cut, l, upd[l]) && update[l] == all[upd[l]]
  }

  /** What is known when the new node is linked in at all its levels. */
  ghost predicate ReadyToInsert<V>(all: seq<Node<V>>, hs: seq<nat>, fw: seq<seq<Node?<V>>>,
                                   node: Node<V>, own: seq<Node?<V>>, cut: nat, h: nat, upd: seq<nat>) {
    && 1 <= cut <= |all| && |upd| == |own| == h + 1
    && HalfInserted(all, hs, fw, node, upd, h + 1)
    && forall l :: 0 <= l <= h ==> LastBefore(hs, cut, l, upd[l]) && own[l] == At(all, NextAt(hs, upd[l], l))
  }

  lemma {:induction false} LinkBeforeInsert<V>(all: seq<Node<V>>, hs: seq<nat>, fw: seq<seq<Node?<V>>>,
                                               node: Node<V>, own: seq<Node?<V>>, cut: nat, h: nat, upd: seq<nat>, j: nat, l: nat)
    requires ReadyToInsert(all, hs, fw, node, own, cut, h, upd) && j < cut && l <= hs[j]
    ensures fw[j][l] == At(Inserted(all, cut, node), NextAt(Inserted(hs, cut, h), j, l))
  {
    NextBeforeInsert(hs, cut, h, j, l);
    var r := NextAt(hs, j, l);
    AtInserted(all, cut, node, if r < cut then r else if l <= h then cut else r + 1);
    if l <= h {
      assert LastBefore(hs, cut, l, upd[l]);
      JumpsFromLastBefore(hs, cut, l, j, upd[l]);
    }
  }

  lemma {:induction false} LinkOfInserted<V>(all: seq<Node<V>>, hs: seq<nat>, fw: seq<seq<Node?<V>>>,
                                             node: Node<V>, own: seq<Node?<V>>, cut: nat, h: nat, upd: seq<nat>, l: nat)
    requires ReadyToInsert(all, hs, fw, node, own, cut, h, upd) && l <= h
    ensures own[l] == At(Inserted(all, cut, node), NextAt(Inserted(hs, cut, h), cut, l))
  {
    assert LastBefore(hs, cut, l, upd[l]);
    NextBehindInsert(hs, cut, h, cut - 1, l);
    NextFromLastBefore(hs, cut, l, upd[l]);
    AtInserted(all, cut, node, NextAt(hs, upd[l], l) + 1);
  }

  lemma {:induction false} LinkBehindInsert<V>(all: seq<Node<V>>, hs: seq<nat>, fw: seq<seq<Node?<V>>>,
                                               node: Node<V>, own: seq<Node?<V>>, cut: nat, h: nat, upd: seq<nat>, j: nat, l: nat)
    requires ReadyToInsert(all, hs, fw, node, own, cut, h, upd) && cut <= j < |all| && l <= hs[j]
    ensures fw[j][l] == At(Inserted(all, cut, node), NextAt(Inserted(hs, cut, h), j + 1, l))
  {
    NextBehindInsert(hs, cut, h, j, l);
    AtInserted(all, cut, node, NextAt(hs, j, l) + 1);
    if l <= h { assert LastBefore(hs, cut, l, upd[l]); }
  }

  /** With the new node in its place everything is linked again. */
  lemma {:induction false} InsertLinks<V>(all: seq<Node<V>>, hs: seq<nat>, fw: seq<seq<Node?<V>>>,
                                          node: Node<V>, own: seq<Node?<V>>, cut: nat, h: nat, upd: seq<nat>)
    requires ReadyToInsert(all, hs, fw, node, own, cut, h, upd)
    ensures Linked(Inserted(all, cut, node), Inserted(hs, cut, h), Inserted(fw, cut, own))
  {
    hide NextAt;
    hide At;
    var all', hs', fw' := Inserted(all, cut, node), Inserted(hs, cut, h), Inserted(fw, cut, own);
    forall j | 0 <= j < |all'| ensures |fw'[j]| == hs'[j] + 1 {
      assert j > cut ==> fw'[j] == fw[j - 1] && hs'[j] == hs[j - 1];
    }
    forall j, l | 0 <= j < |all'| && 0 <= l <= hs'[j] ensures LinkOk(all', hs', fw', j, l) {
      if j < cut {
        LinkBeforeInsert(all, hs, fw, node, own, cut, h, upd, j, l);
      } else if j == cut {
        LinkOfInserted(all, hs, fw, node, own, cut, h, upd, l);
      } else {
        assert fw'[j] == fw[j - 1] && hs'[j] == hs[j - 1];
        LinkBehindInsert(all, hs, fw, node, own, cut, h, upd, j - 1, l);
      }
    }
  }

  // ----- removal -----

  lemma {:induction false} AtRemoved<V>(all: seq<Node<V>>, cut: nat, r: nat)
    requires cut < |all|
    ensures At(Removed(all, cut), r) == if r < cut then At(all, r) else At(all, r + 1)
  {
  }

  /** Levels 0..i-1 have been led past the node at `cut`, at the places `upd`. */
  ghost predicate HalfRemoved<V>(all: seq<Node<V>>, hs: seq<nat>, fw: seq<seq<Node?<V>>>, cut: nat, upd: seq<nat>, i: nat) {
    && |hs| == |all| == |fw| && 1 <= cut < |all| && i <= |upd| && i <= hs[cut] + 1 <= |upd|
    && (forall j :: 0 <= j < |all| ==> |fw[j]| == hs[j] + 1)
    && (forall l :: 0 <= l <= hs[cut] ==> LastBefore(hs, cut, l, upd[l]))
    && (forall j, l :: 0 <= j < |all| && 0 <= l <= hs[j] ==>
          fw[j][l] == At(all, if l < i && upd[l] == j then NextAt(hs, cut, l) else NextAt(hs, j, l)))
  }

  lemma {:induction false} LinkBeforeRemove<V>(all: seq<Node<V>>, hs: seq<nat>, fw: seq<seq<Node?<V>>>, cut: nat, upd: seq<nat>, j: nat, l: nat)
    requires |hs| == |all| && 1 <= cut < |all| && HalfRemoved(all, hs, fw, cut, upd, hs[cut] + 1) && j < cut && l <= hs[j]
    ensures fw[j][l] == At(Removed(all, cut), NextAt(Removed(hs, cut), j, l))
  {
    NextBeforeRemove(hs, cut, j, l);
    var r := NextAt(hs, j, l);
    AtRemoved(all, cut, if r < cut then r else if r == cut then NextAt(hs, cut, l) - 1 else r - 1);
    if l <= hs[cut] {
      assert LastBefore(hs, cut, l, upd[l]);
      JumpsFromLastBefore(hs, cut, l, j, upd[l]);
    }
  }

  lemma {:induction false} LinkBehindRemove<V>(all: seq<Node<V>>, hs: seq<nat>, fw: seq<seq<Node?<V>>>, cut: nat, upd: seq<nat>, j: nat, l: nat)
    requires |hs| == |all| && 1 <= cut < |all| && HalfRemoved(all, hs, fw, cut, upd, hs[cut] + 1) && cut < j < |all| && l <= hs[j]
    ensures fw[j][l] == At(Removed(all, cut), NextAt(Removed(hs, cut), j - 1, l))
  {
    NextBehindRemove(hs, cut, j, l);
    AtRemoved(all, cut, NextAt(hs, j, l) - 1);
    if l <= hs[cut] { assert LastBefore(hs, cut, l, upd[l]); }
  }

  /** Without the node everything is linked again. */
  lemma {:induction false} RemoveLinks<V>(all: seq<Node<V>>, hs: seq<nat>, fw: seq<seq<Node?<V>>>, cut: nat, upd: seq<nat>)
    requires |hs| == |all| && 1 <= cut < |all| && HalfRemoved(all, hs, fw, cut, upd, hs[cut] + 1)
    ensures Linked(Removed(all, cut), Removed(hs, cut), Removed(fw, cut))
  {
    hide NextAt;
    hide At;
    var all', hs', fw' := Removed(all, cut), Removed(hs, cut), Removed(fw, cut);
    forall j | 0 <= j < |all'| ensures |fw'[j]| == hs'[j] + 1 {
      assert j >= cut ==> fw'[j] == fw[j + 1] && hs'[j] == hs[j + 1];
    }
    forall j, l | 0 <= j < |all'| && 0 <= l <= hs'[j] ensures LinkOk(all', hs', fw', j, l) {
      if j < cut {
        LinkBeforeRemove(all, hs, fw, cut, upd, j, l);
      } else {
        assert fw'[j] == fw[j + 1] && hs'[j] == hs[j + 1];
        LinkBehindRemove(all, hs, fw, cut, upd, j + 1, l);
      }
    }
  }

  // ----- the row after insertion and removal -----

  lemma {:induction false} InsertedElements<T>(s: seq<T>, cut: nat, x: T)
    requires cut <= |s|
    ensures var s' := Inserted(s, cut, x);
            && |s'| == |s| + 1 && s'[cut] == x
            && (forall k :: 0 <= k < cut ==> s'[k] == s[k]) && (forall k :: cut <= k < |s| ==> s'[k + 1] == s[k])
            && (forall k :: cut < k < |s'| ==> s'[k] == s[k - 1])
  {
  }

  lemma {:induction false} InsertKeepsRow<V>(descending: bool, all: seq<Node<V>>, node: Node<V>, cut: nat)
    requires |all| >= 1 && Sorted(descending, all) && Distinct(all) && node !in all
    requires cut == CutFrom(descending, all, node.key, 1)
    requires !HasKey(all, node.key)
    ensures Sorted(descending, Inserted(all, cut, node)) && Distinct(Inserted(all, cut, node))
  {
    CutSeparates(descending, all, node.key);
    InsertedElements(all, cut, node);
    var all' := Inserted(all, cut, node);
    forall i, j | 1 <= i < j < |all'| ensures Before(descending, all'[i].key, all'[j].key) {
      assert i > cut ==> all'[i] == all[i - 1];
      assert j > cut ==> all'[j] == all[j - 1];
    }
    forall i, j | 0 <= i < j < |all'| ensures all'[i] != all'[j] {
      assert i > cut ==> all'[i] == all[i - 1];
      assert j > cut ==> all'[j] == all[j - 1];
    }
  }

  lemma {:induction false} InsertedSet<V>(all: seq<Node<V>>, cut: nat, node: Node<V>)
    requires cut <= |all|
    ensures NodeSet(Inserted(all, cut, node)) == NodeSet(all) + {node}
  {
    assert all == all[..cut] + all[cut..];
  }

  lemma {:induction false} InsertRow<V>(maxLevel: nat, descending: bool, head: Node<V>, all: seq<Node<V>>, hs: seq<nat>,
                                        size: nat, top: nat, node: Node<V>, cut: nat, h: nat)
    requires RowOk(maxLevel, descending, head, all, hs, size, top) && h <= maxLevel
    requires node !in all && !HasKey(all, node.key) && cut == CutFrom(descending, all, node.key, 1)
    ensures RowOk(maxLevel, descending, head, Inserted(all, cut, node), Inserted(hs, cut, h), size + 1, if h > top then h else top)
  {
    hide Sorted;
    hide Distinct;
    InsertKeepsRow(descending, all, node, cut);
    InsertedElements(all, cut, node);
    InsertedElements(hs, cut, h);
    var hs', top' := Inserted(hs, cut, h), if h > top then h else top;
    if h >= top {
      assert hs'[cut] == top';
    } else {
      var j :| 1 <= j < |hs| && hs[j] == top;
      assert hs'[if j < cut then j else j + 1] == top';
    }
  }

  lemma {:induction false} InsertHolds<V>(all: seq<Node<V>>, vals: seq<V>, m: map<Int64, V>, cut: nat, node: Node<V>, v: V)
    requires Holds(all, vals, m) && 1 <= cut <= |all| && node.key !in m
    ensures Holds(Inserted(all, cut, node), Inserted(vals, cut, v), m[node.key := v])
  {
    InsertedElements(all, cut, node);
    InsertedElements(vals, cut, v);
    var all', m' := Inserted(all, cut, node), m[node.key := v];
    forall k | k in m' ensures HasKey(all', k) {
      if k == node.key {
        assert all'[cut].key == k;
      } else {
        assert HasKey(all, k);
        var j :| 1 <= j < |all| && all[j].key == k;
        assert all'[if j < cut then j else j + 1].key == k;
      }
    }
  }

  lemma {:induction false} RemovedElements<T>(s: seq<T>, cut: nat)
    requires cut < |s|
    ensures var s' := Removed(s, cut);
            && |s'| == |s| - 1
            && (forall k :: 0 <= k < cut ==> s'[k] == s[k]) && (forall k :: cut <= k < |s'| ==> s'[k] == s[k + 1])
            && (forall k :: cut < k < |s| ==> s'[k - 1] == s[k])
  {
  }

  lemma {:induction false} RemoveRow<V>(maxLevel: nat, descending: bool, head: Node<V>, all: seq<Node<V>>, hs: seq<nat>,
                                        size: nat, top: nat, cut: nat)
    requires RowOk(maxLevel, descending, head, all, hs, size, top) && 1 <= cut < |all|
    ensures size > 0 && RowInOrder(maxLevel, descending, head, Removed(all, cut), Removed(hs, cut), size - 1)
    ensures forall j :: 1 <= j < |Removed(hs, cut)| ==> Removed(hs, cut)[j] <= top
    ensures NodeSet(Removed(all, cut)) <= NodeSet(all)
  {
    RemovedElements(all, cut);
    RemovedElements(hs, cut);
    var all' := Removed(all, cut);
    forall i, j | 1 <= i < j < |all'| ensures Before(descending, all'[i].key, all'[j].key) {
      assert all'[i] == all[if i < cut then i else i + 1] && all'[j] == all[if j < cut then j else j + 1];
    }
  }

  lemma {:induction false} RemoveHolds<V>(descending: bool, all: seq<Node<V>>, vals: seq<V>, m: map<Int64, V>, cut: nat)
    requires Holds(all, vals, m) && Sorted(descending, all) && 1 <= cut < |all|
    ensures Holds(Removed(all, cut), Removed(vals, cut), m - {all[cut].key})
  {
    RemovedElements(all, cut);
    RemovedElements(vals, cut);
    var all', key := Removed(all, cut), all[cut].key;
    forall j | 1 <= j < |all'| ensures all'[j].key in m - {key} && (m - {key})[all'[j].key] == Removed(vals, cut)[j] {
      var i := if j < cut then j else j + 1;
      assert all'[j] == all[i];
      assert i < cut ==> Before(descending, all[i].key, key);
      assert i > cut ==> Before(descending, key, all[i].key);
    }
    forall k | k in m - {key} ensures HasKey(all', k) {
      assert HasKey(all, k);
      var j :| 1 <= j < |all| && all[j].key == k;
      assert all'[if j < cut then j else j - 1].key == k;
    }
  }

  // ----- the list -----

  class SkipList<V(0)> {
    const maxLevel: nat
    const descending: bool
    const head: Node<V>
    var currentLevel: nat
    var size: nat

    /** The head and then the nodes in key order; their heights; and the map they stand for. */
    ghost var all: seq<Node<V>>
    ghost var hs: seq<nat>
    ghost var contents: map<Int64, V>

    ghost function Forwards(): (fw: seq<seq<Node?<V>>>)
      reads this, all
      ensures |fw| == |all| && forall j :: 0 <= j < |all| ==> fw[j] == all[j].forward
    {
      seq(|all|, j requires 0 <= j < |all| reads this, all => all[j].forward)
    }

    ghost function Values(): (vals: seq<V>)
      reads this, all
      ensures |vals| == |all| && forall j :: 0 <= j < |all| ==> vals[j] == all[j].value
    {
      seq(|all|, j requires 0 <= j < |all| reads this, all => all[j].value)
    }

    ghost function Repr(): set<Node<V>>
      reads this
    {
      NodeSet(all)
    }

    ghost predicate Valid()
      reads this, all
    {
      && RowOk(maxLevel, descending, head, all, hs, size, currentLevel)
      && Linked(all, hs, Forwards())
      && Holds(all, Values(), contents)
    }

    constructor (maxLevel: nat, descending: bool)
      ensures Valid() && contents == map[] && fresh(all) && this.descending == descending && this.maxLevel == maxLevel
    {
      this.maxLevel, this.descending := maxLevel, descending;
      currentLevel, size := 0, 0;
      var v: V := *;
      var h := new Node<V>(0, maxLevel, v);
      head := h;
      all, hs, contents := [h], [maxLevel], map[];
    }

    /** Flips coins until one fails or the top is reached. */
    method RandomLevel() returns (lvl: nat)
      ensures lvl <= maxLevel
    {
      lvl := 0;
      while lvl < maxLevel
        invariant lvl <= maxLevel
      {
        var heads: bool := *;
        if !heads { break; }
        lvl := lvl + 1;
      }
    }

    /** Walks down from the top level; `update` collects, per level, the last node before `key`. */
    method Locate(key: Int64) returns (curr: Node<V>, update: seq<Node?<V>>, ghost upd: seq<nat>, ghost cut: nat)
      requires Valid()
      ensures cut == CutFrom(descending, all, key, 1)
      ensures |update| == |upd| == maxLevel + 1
      ensures forall l :: 0 <= l <= currentLevel ==> LastBefore(hs, cut, l, upd[l]) && update[l] == all[upd[l]]
      ensures curr == all[CutFrom(descending, all, key, 1) - 1]
    {
      hide Distinct;
      hide Sorted;
      hide Linked;
      hide NextAt;
      hide CutFrom;
      cut := CutFrom(descending, all, key, 1);
      update, upd := seq(maxLevel + 1, _ => null), seq(maxLevel + 1, _ => 0);
      curr := head;
      ghost var p: nat := 0;
      var i := currentLevel + 1;
      while i > 0
        invariant 0 <= i <= currentLevel + 1 && |update| == |upd| == maxLevel + 1
        invariant p < cut && curr == all[p] && hs[p] >= i - 1
        invariant forall l :: i <= l <= currentLevel ==> LastBefore(hs, cut, l, upd[l]) && update[l] == all[upd[l]]
        invariant i == 0 ==> p == cut - 1
      {
        i := i - 1;
        curr, p := Advance(key, curr, i, p, cut);
        update, upd := update[i := curr], upd[i := p];
        if i == 0 { LastAtLevelZero(hs, cut, p); }
      }
    }

    /** One level of the walk: forward while the next node is before `key`. */
    method Advance(key: Int64, from: Node<V>, i: nat, ghost p0: nat, ghost cut: nat) returns (curr: Node<V>, ghost p: nat)
      requires Valid() && cut == CutFrom(descending, all, key, 1)
      requires p0 < cut && from == all[p0] && hs[p0] >= i
      ensures p < cut && curr == all[p] && LastBefore(hs, cut, i, p)
    {
      CutSeparates(descending, all, key);
      curr, p := from, p0;
      assert LinkOk(all, hs, Forwards(), p, i);
      while curr.forward[i] != null && Before(descending, curr.forward[i].key, key)
        invariant p < cut && curr == all[p] && hs[p] >= i && LinkOk(all, hs, Forwards(), p, i)
        decreases |all| - p
      {
        p := NextAt(hs, p, i);
        curr := curr.forward[i];
        assert LinkOk(all, hs, Forwards(), p, i);
      }
    }

    /** Level 0 leads to the next node. */
    lemma {:induction false} NextInRow(j: nat)
      requires Valid() && j < |all|
      ensures |all[j].forward| >= 1 && all[j].forward[0] == At(all, j + 1)
    {
      assert LinkOk(all, hs, Forwards(), j, 0);
      NextUnique(hs, j, 0, j + 1);
    }

    /** The node of that key, or null. */
    method Find(key: Int64) returns (n: Node?<V>)
      requires Valid()
      ensures n == null <==> key !in contents
      ensures n != null ==> n in all[1..] && n.key == key && n.value == contents[key]
    {
      hide Distinct;
      hide Linked;
      hide CutFrom;
      hide LastBefore;
      hide Holds;
      var curr, _, _, cut := Locate(key);
      KeyFound(key);
      NextInRow(cut - 1);
      n := curr.forward[0];
      if n != null && !Before(descending, key, n.key) && !Before(descending, n.key, key) {
        assert n == all[1..][cut - 1];
        return;
      }
      n := null;
    }

    /** The first node, or null. */
    method Best() returns (n: Node?<V>)
      requires Valid()
      ensures n == At(all, 1) && (n == null <==> contents == map[])
      ensures n != null ==> n in all[1..] && n.key in contents && n.value == contents[n.key]
                            && forall k :: k in contents ==> k == n.key || Before(descending, n.key, k)
    {
      NextInRow(0);
      n := head.forward[0];
      if n != null { assert n == all[1..][0]; }
    }

    /** The owner changes a node's value through the pointer it holds. */
    method Store(n: Node<V>, value: V)
      requires Valid() && n in all[1..]
      modifies n`value, this`contents
      ensures Valid() && contents == old(contents)[n.key := value] && all == old(all)
    {
      hide Linked;
      hide Distinct;
      n.value := value;
      contents := contents[n.key := value];
      assert Forwards() == old(Forwards());
      assert forall j :: 1 <= j < |all| && all[j] != n ==> all[j].key != n.key;
    }

    // ----- insertion -----

    /** One level of the relinking. */
    lemma {:induction false} HalfInsertedStep(fw: seq<seq<Node?<V>>>, fw': seq<seq<Node?<V>>>, node: Node<V>, upd: seq<nat>, i: nat)
      requires i < |upd| && HalfInserted(all, hs, fw, node, upd, i) && upd[i] < |all| && i <= hs[upd[i]]
      requires fw' == fw[upd[i] := fw[upd[i]][i := node]]
      ensures HalfInserted(all, hs, fw', node, upd, i + 1)
    {
    }

    lemma {:induction false} NothingInserted(fw: seq<seq<Node?<V>>>, node: Node<V>, upd: seq<nat>)
      requires Linked(all, hs, fw)
      ensures HalfInserted(all, hs, fw, node, upd, 0)
    {
      hide NextAt;
      hide At;
      forall j, l | 0 <= j < |all| && 0 <= l <= hs[j] ensures fw[j][l] == At(all, NextAt(hs, j, l)) {
        assert LinkOk(all, hs, fw, j, l);
      }
    }

    /** A level that was not reached yet still has its old link. */
    lemma {:induction false} StillLinked(fw: seq<seq<Node?<V>>>, node: Node<V>, upd: seq<nat>, i: nat)
      requires i < |upd| && HalfInserted(all, hs, fw, node, upd, i) && upd[i] < |all| && i <= hs[upd[i]]
      ensures |fw| == |all| && i < |fw[upd[i]]| && fw[upd[i]][i] == At(all, NextAt(hs, upd[i], i))
    {
    }

    /** Links `node` in at one level behind the node at place j. */
    method LinkLevel(node: Node<V>, i: nat, u: Node<V>, ghost j: nat)
      requires Distinct(all) && node !in all && j < |all| && all[j] == u
      requires i < |node.forward| && i < |u.forward|
      modifies node`forward, u`forward
      ensures node.forward == old(node.forward)[i := old(u.forward)[i]]
      ensures Forwards() == old(Forwards())[j := old(Forwards())[j][i := node]]
    {
      node.forward := node.forward[i := u.forward[i]];
      u.forward := u.forward[i := node];
      assert forall k :: 0 <= k < |all| && k != j ==> all[k] != u;
      assert forall k :: 0 <= k < |all| && k != j ==> Forwards()[k] == old(Forwards())[k];
    }

    /** Links `node` in at every level up to its height. */
    method LinkIn(node: Node<V>, h: nat, update: seq<Node?<V>>, ghost upd: seq<nat>, ghost cut: nat)
      requires |all| == |hs| && Distinct(all) && Linked(all, hs, Forwards()) && node !in all
      requires node.forward == seq(h + 1, _ => null) && Updates(all, hs, cut, update, upd, h)
      modifies node`forward, all`forward
      ensures |node.forward| == h + 1 && HalfInserted(all, hs, Forwards(), node, upd, h + 1)
      ensures forall l :: 0 <= l <= h ==> upd[l] < |all| && node.forward[l] == At(all, NextAt(hs, upd[l], l))
    {
      hide NextAt;
      hide At;
      hide HalfInserted;
      hide Distinct;
      NothingInserted(Forwards(), node, upd);
      hide Linked;
      for i := 0 to h + 1
        invariant |node.forward| == h + 1 && HalfInserted(all, hs, Forwards(), node, upd, i)
        invariant forall l :: 0 <= l < i ==> upd[l] < |all| && node.forward[l] == At(all, NextAt(hs, upd[l], l))
      {
        ghost var fw, j := Forwards(), upd[i];
        assert LastBefore(hs, cut, i, j);
        StillLinked(fw, node, upd, i);
        LinkLevel(node, i, update[i], j);
        HalfInsertedStep(fw, Forwards(), node, upd, i);
      }
    }

    /** Above the current top level the head is the last node before anything. */
    method RaiseUpdate(newLevel: nat, update0: seq<Node?<V>>, ghost upd0: seq<nat>, ghost cut: nat)
      returns (update: seq<Node?<V>>, ghost upd: seq<nat>)
      requires Valid() && newLevel <= maxLevel && 1 <= cut <= |all| && |update0| == |upd0| == maxLevel + 1
      requires forall l :: 0 <= l <= currentLevel ==> LastBefore(hs, cut, l, upd0[l]) && update0[l] == all[upd0[l]]
      ensures Updates(all, hs, cut, update, upd, newLevel)
    {
      update, upd := update0, upd0;
      if newLevel > currentLevel {
        for i := currentLevel + 1 to newLevel + 1
          invariant |update| == |upd| == maxLevel + 1
          invariant forall l :: 0 <= l < i ==> LastBefore(hs, cut, l, upd[l]) && update[l] == all[upd[l]]
        {
          update, upd := update[i := head], upd[i := 0];
        }
      }
      upd := upd[..newLevel + 1];
    }

    /** Inserts a new key; false if the key is there already. */
    method Insert(key: Int64, value: V) returns (ok: bool)
      requires Valid()
      modifies this, all`forward
      ensures Valid() && fresh(Repr() - old(Repr()))
      ensures ok == (key !in old(contents))
      ensures contents == if ok then old(contents)[key := value] else old(contents)
    {
      hide NextAt;
      hide CutFrom;
      hide Updates;
      hide LastBefore;
      hide NodeSet;
      hide Linked;
      hide Holds;
      hide Sorted;
      hide Distinct;
      hide TopIs;
      var curr, update, upd, cut := Locate(key);
      KeyFound(key);
      NextInRow(cut - 1);
      var next := curr.forward[0];
      if next != null && !Before(descending, key, next.key) && !Before(descending, next.key, key) {
        return false;
      }
      var newLevel := RandomLevel();
      update, upd := RaiseUpdate(newLevel, update, upd, cut);
      var node := new Node<V>(key, newLevel, value);
      assert node !in all;
      LinkAndFinish(node, newLevel, update, upd, cut);
      assert Repr() - old(Repr()) <= {node};
      return true;
    }

    /** A key is in the map exactly when it stands at its cut. */
    lemma {:induction false} KeyFound(key: Int64)
      requires Valid()
      ensures var c := CutFrom(descending, all, key, 1);
              && 1 <= c <= |all|
              && (c < |all| ==> (all[c].key == key <==> !Before(descending, key, all[c].key))
                                && !Before(descending, all[c].key, key))
              && (key in contents <==> c < |all| && all[c].key == key)
              && (key in contents ==> contents[key] == all[c].value)
    {
      KeyAtCut(descending, all, key);
    }

    /** Takes over a new row, with the pointers and values its nodes have. */
    ghost method AdoptRow(all': seq<Node<V>>, hs': seq<nat>, m': map<Int64, V>, fw': seq<seq<Node?<V>>>, vals': seq<V>)
      requires |fw'| == |vals'| == |all'| && forall j :: 0 <= j < |all'| ==> fw'[j] == all'[j].forward && vals'[j] == all'[j].value
      modifies this`all, this`hs, this`contents
      ensures all == all' && hs == hs' && contents == m' && Forwards() == fw' && Values() == vals'
    {
      all, hs, contents := all', hs', m';
    }

    /** Pointers and values of the longer row. */
    lemma {:induction false} InsertedParts(node: Node<V>, cut: nat)
      requires cut <= |all|
      ensures var all' := Inserted(all, cut, node);
              var fw', vals' := Inserted(Forwards(), cut, node.forward), Inserted(Values(), cut, node.value);
              && |fw'| == |vals'| == |all'|
              && forall j :: 0 <= j < |all'| ==> fw'[j] == all'[j].forward && vals'[j] == all'[j].value
    {
      InsertedElements(all, cut, node);
      InsertedElements(Forwards(), cut, node.forward);
      InsertedElements(Values(), cut, node.value);
    }

    /** Takes a node that is linked in at every level into the row. */
    method TakeIn(node: Node<V>, h: nat, ghost upd: seq<nat>, ghost cut: nat)
      requires RowOk(maxLevel, descending, head, all, hs, size, currentLevel) && Holds(all, Values(), contents)
      requires h <= maxLevel && node !in all && node.key !in contents && !HasKey(all, node.key)
      requires cut == CutFrom(descending, all, node.key, 1)
      requires ReadyToInsert(all, hs, Forwards(), node, node.forward, cut, h, upd)
      modifies this
      ensures Valid() && Repr() == old(Repr()) + {node} && contents == old(contents)[node.key := node.value]
    {
      hide NextAt;
      hide CutFrom;
      hide ReadyToInsert;
      hide Linked;
      hide LastBefore;
      hide NodeSet;
      hide Inserted;
      hide Holds;
      hide Sorted;
      hide Distinct;
      hide TopIs;
      ghost var fw, vals := Forwards(), Values();
      assert 1 <= cut <= |all|;
      InsertLinks(all, hs, fw, node, node.forward, cut, h, upd);
      InsertRow(maxLevel, descending, head, all, hs, size, currentLevel, node, cut, h);
      InsertHolds(all, vals, contents, cut, node, node.value);
      InsertedSet(all, cut, node);
      InsertedParts(node, cut);
      hide RowOk;
      if h > currentLevel { currentLevel := h; }
      size := size + 1;
      AdoptRow(Inserted(all, cut, node), Inserted(hs, cut, h), contents[node.key := node.value],
               Inserted(fw, cut, node.forward), Inserted(vals, cut, node.value));
    }

    /** Links the new node in and takes it into the row. */
    method LinkAndFinish(node: Node<V>, h: nat, update: seq<Node?<V>>, ghost upd: seq<nat>, ghost cut: nat)
      requires Valid() && h <= maxLevel && node !in all && node.key !in contents
      requires cut == CutFrom(descending, all, node.key, 1)
      requires node.forward == seq(h + 1, _ => null) && Updates(all, hs, cut, update, upd, h)
      modifies this, node`forward, all`forward
      ensures Valid() && Repr() == old(Repr()) + {node} && contents == old(contents)[node.key := node.value]
    {
      hide NextAt;
      hide CutFrom;
      hide HalfInserted;
      hide Linked;
      hide LastBefore;
      hide NodeSet;
      hide Sorted;
      assert !HasKey(all, node.key);
      LinkIn(node, h, update, upd, cut);
      assert Values() == old(Values());
      TakeIn(node, h, upd, cut);
    }

    // ----- removal -----

    lemma {:induction false} HalfRemovedStep(fw: seq<seq<Node?<V>>>, fw': seq<seq<Node?<V>>>, cut: nat, upd: seq<nat>, i: nat)
      requires HalfRemoved(all, hs, fw, cut, upd, i) && i <= hs[cut] && upd[i] < |all| && i <= hs[upd[i]]
      requires fw' == fw[upd[i] := fw[upd[i]][i := fw[cut][i]]]
      ensures HalfRemoved(all, hs, fw', cut, upd, i + 1)
    {
      assert LastBefore(hs, cut, i, upd[i]);
    }

    lemma {:induction false} NothingRemoved(fw: seq<seq<Node?<V>>>, cut: nat, upd: seq<nat>)
      requires |all| == |hs| && Linked(all, hs, fw) && 1 <= cut < |all| && hs[cut] + 1 <= |upd|
      requires forall l :: 0 <= l <= hs[cut] ==> LastBefore(hs, cut, l, upd[l])
      ensures HalfRemoved(all, hs, fw, cut, upd, 0)
    {
      hide NextAt;
      hide At;
      forall j, l | 0 <= j < |all| && 0 <= l <= hs[j] ensures fw[j][l] == At(all, NextAt(hs, j, l)) {
        assert LinkOk(all, hs, fw, j, l);
      }
    }

    /** Whether level i still leads to the node at the cut. */
    lemma {:induction false} LeadsToTarget(fw: seq<seq<Node?<V>>>, cut: nat, upd: seq<nat>, i: nat)
      requires Distinct(all) && HalfRemoved(all, hs, fw, cut, upd, i) && i < |upd| && LastBefore(hs, cut, i, upd[i])
      ensures |fw| == |all| == |hs| && 1 <= cut < |all| && upd[i] < |all|
      ensures i <= hs[upd[i]] && i < |fw[upd[i]]| && (fw[upd[i]][i] == all[cut] <==> i <= hs[cut])
      ensures i <= hs[cut] ==> i < |fw[cut]|
    {
      NextFromLastBefore(hs, cut, i, upd[i]);
      var r := NextAt(hs, upd[i], i);
      assert i <= hs[cut] <==> r == cut;
    }

    /** Sets one pointer of the node at place j. */
    method Relink(u: Node<V>, i: nat, to: Node?<V>, ghost j: nat)
      requires Distinct(all) && j < |all| && all[j] == u && i < |u.forward|
      modifies u`forward
      ensures Forwards() == old(Forwards())[j := old(Forwards())[j][i := to]]
    {
      u.forward := u.forward[i := to];
      assert forall k :: 0 <= k < |all| && k != j ==> all[k] != u;
      assert forall k :: 0 <= k < |all| && k != j ==> Forwards()[k] == old(Forwards())[k];
    }

    /** Leads every level that reaches `target` past it. */
    method Unlink(target: Node<V>, update: seq<Node?<V>>, ghost upd: seq<nat>, ghost cut: nat)
      requires |all| == |hs| && Distinct(all) && Linked(all, hs, Forwards())
      requires 1 <= cut < |all| && target == all[cut] && hs[cut] <= currentLevel < |update| == |upd|
      requires forall l :: 0 <= l <= currentLevel ==> upd[l] < |all| && LastBefore(hs, cut, l, upd[l]) && update[l] == all[upd[l]]
      modifies all`forward
      ensures HalfRemoved(all, hs, Forwards(), cut, upd, hs[cut] + 1)
    {
      hide HalfRemoved;
      hide LastBefore;
      NothingRemoved(Forwards(), cut, upd);
      hide Linked;
      hide Distinct;
      for i := 0 to currentLevel + 1
        invariant i <= hs[cut] + 1 && HalfRemoved(all, hs, Forwards(), cut, upd, i)
      {
        ghost var fw, j := Forwards(), upd[i];
        LeadsToTarget(fw, cut, upd, i);
        if update[i].forward[i] != target { break; }
        Relink(update[i], i, target.forward[i], j);
        HalfRemovedStep(fw, Forwards(), cut, upd, i);
      }
    }

    /** Lowers the top level while the head leads nowhere on it. */
    method ShrinkTop()
      requires RowInOrder(maxLevel, descending, head, all, hs, size) && Linked(all, hs, Forwards())
      requires Holds(all, Values(), contents)
      requires currentLevel <= maxLevel && forall j :: 1 <= j < |hs| ==> hs[j] <= currentLevel
      modifies this`currentLevel
      ensures Valid() && all == old(all) && hs == old(hs) && contents == old(contents)
    {
      ghost var fw, vals := Forwards(), Values();
      assert LinkOk(all, hs, fw, 0, currentLevel);
      while currentLevel > 0 && head.forward[currentLevel] == null
        invariant all == old(all) && hs == old(hs) && contents == old(contents) && size == old(size)
        invariant currentLevel <= maxLevel && forall j :: 1 <= j < |hs| ==> hs[j] <= currentLevel
        invariant LinkOk(all, hs, fw, 0, currentLevel)
      {
        currentLevel := currentLevel - 1;
        assert LinkOk(all, hs, fw, 0, currentLevel);
      }
      assert currentLevel > 0 ==> hs[NextAt(hs, 0, currentLevel)] == currentLevel;
      assert Forwards() == fw && Values() == vals;
    }

    /** Removes a key; false if it is not there. */
    method Remove(key: Int64) returns (ok: bool)
      requires Valid()
      modifies this, all`forward
      ensures Valid() && Repr() <= old(Repr())
      ensures ok == (key in old(contents)) && contents == old(contents) - {key}
    {
      hide NextAt;
      hide CutFrom;
      hide NodeSet;
      hide Linked;
      hide HalfRemoved;
      var curr, update, upd, cut := Locate(key);
      KeyFound(key);
      NextInRow(cut - 1);
      var target := curr.forward[0];
      if target == null || Before(descending, key, target.key) || Before(descending, target.key, key) {
        return false;
      }
      hide LastBefore;
      hide Sorted;
      hide Holds;
      Unlink(target, update, upd, cut);
      assert Values() == old(Values());
      Drop(cut, upd);
      return true;
    }

    /** Pointers and values of the shorter row. */
    lemma {:induction false} RemovedParts(cut: nat)
      requires cut < |all|
      ensures var all' := Removed(all, cut);
              var fw', vals' := Removed(Forwards(), cut), Removed(Values(), cut);
              && |fw'| == |vals'| == |all'|
              && forall j :: 0 <= j < |all'| ==> fw'[j] == all'[j].forward && vals'[j] == all'[j].value
    {
      RemovedElements(all, cut);
      RemovedElements(Forwards(), cut);
      RemovedElements(Values(), cut);
    }

    /** Takes the unlinked node out of the row. */
    method Drop(ghost cut: nat, ghost upd: seq<nat>)
      requires RowOk(maxLevel, descending, head, all, hs, size, currentLevel) && Holds(all, Values(), contents)
      requires 1 <= cut < |all| && HalfRemoved(all, hs, Forwards(), cut, upd, hs[cut] + 1)
      modifies this
      ensures Valid() && Repr() <= old(Repr()) && contents == old(contents) - {old(all)[cut].key}
    {
      hide NextAt;
      hide HalfRemoved;
      hide Linked;
      hide NodeSet;
      hide Removed;
      hide Holds;
      hide Sorted;
      ghost var fw, vals, key := Forwards(), Values(), all[cut].key;
      RemoveLinks(all, hs, fw, cut, upd);
      RemoveRow(maxLevel, descending, head, all, hs, size, currentLevel, cut);
      RemoveHolds(descending, all, vals, contents, cut);
      RemovedParts(cut);
      size := size - 1;
      AdoptRow(Removed(all, cut), Removed(hs, cut), contents - {key}, Removed(fw, cut), Removed(vals, cut));
      ShrinkTop();
    }
  }
}
