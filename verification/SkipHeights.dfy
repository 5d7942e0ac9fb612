/** The shape of a skip list: a row of towers, given by their heights.  A tower's link at level l
    leads to the next tower that is at least l high. */
module SkipHeights {

  /** r is the next tower behind j that reaches level l; |hs| if there is none. */
  ghost predicate IsNext(hs: seq<nat>, j: nat, l: nat, r: nat) {
    && j < r <= |hs|
    && (forall k :: j < k < r ==> hs[k] < l)
    && (r < |hs| ==> hs[r] >= l)
  }

  ghost function NextAt(hs: seq<nat>, j: nat, l: nat): (r: nat)
    requires j < |hs|
    ensures IsNext(hs, j, l, r)
    decreases |hs| - j
  {
    if j + 1 == |hs| then |hs| else if hs[j + 1] >= l then j + 1 else NextAt(hs, j + 1, l)
  }

  lemma {:induction false} NextUnique(hs: seq<nat>, j: nat, l: nat, r: nat)
    requires j < |hs| && IsNext(hs, j, l, r)
    ensures NextAt(hs, j, l) == r
  {
  }

  /** j is the last tower before `cut` that reaches level l. */
  ghost predicate LastBefore(hs: seq<nat>, cut: nat, l: nat, j: nat) {
    && j < cut <= |hs| && hs[j] >= l
    && forall k :: j < k < cut ==> hs[k] < l
  }

  /** At level 0 that is the tower right before the cut. */
  lemma {:induction false} LastAtLevelZero(hs: seq<nat>, cut: nat, j: nat)
    requires LastBefore(hs, cut, 0, j)
    ensures j == cut - 1
  {
    assert hs[cut - 1] >= 0;
  }

  lemma {:induction false} NextFromLastBefore(hs: seq<nat>, cut: nat, l: nat, j: nat)
    requires LastBefore(hs, cut, l, j)
    ensures NextAt(hs, j, l) == NextAt(hs, cut - 1, l) >= cut
  {
    var r := NextAt(hs, j, l);
    assert r >= cut;
    assert IsNext(hs, cut - 1, l, r);
    NextUnique(hs, cut - 1, l, r);
  }

  /** A link that jumps over the cut starts at the last tower before it. */
  lemma {:induction false} JumpsFromLastBefore(hs: seq<nat>, cut: nat, l: nat, j: nat, last: nat)
    requires LastBefore(hs, cut, l, last) && j < cut && hs[j] >= l
    ensures NextAt(hs, j, l) >= cut <==> j == last
  {
    if j == last { NextFromLastBefore(hs, cut, l, last); }
  }

  // ----- a tower of height h goes in at place `cut` -----

  function Inserted<T>(s: seq<T>, cut: nat, x: T): seq<T>
    requires cut <= |s|
  {
    s[..cut] + [x] + s[cut..]
  }

  lemma {:induction false} NextBeforeInsert(hs: seq<nat>, cut: nat, h: nat, j: nat, l: nat)
    requires j < cut <= |hs|
    ensures var r := NextAt(hs, j, l);
            NextAt(Inserted(hs, cut, h), j, l) == if r < cut then r else if l <= h then cut else r + 1
  {
    var hs', r := Inserted(hs, cut, h), NextAt(hs, j, l);
    var r' := if r < cut then r else if l <= h then cut else r + 1;
    assert forall k :: 0 <= k < |hs'| ==> hs'[k] == if k < cut then hs[k] else if k == cut then h else hs[k - 1];
    assert IsNext(hs', j, l, r');
    NextUnique(hs', j, l, r');
  }

  lemma {:induction false} NextBehindInsert(hs: seq<nat>, cut: nat, h: nat, j: nat, l: nat)
    requires cut <= j + 1 <= |hs|
    ensures NextAt(Inserted(hs, cut, h), j + 1, l) == NextAt(hs, j, l) + 1
  {
    var hs', r := Inserted(hs, cut, h), NextAt(hs, j, l);
    assert forall k :: 0 <= k < |hs'| ==> hs'[k] == if k < cut then hs[k] else if k == cut then h else hs[k - 1];
    assert IsNext(hs', j + 1, l, r + 1);
    NextUnique(hs', j + 1, l, r + 1);
  }

  // ----- the tower at place `cut` comes out -----

  function Removed<T>(s: seq<T>, cut: nat): seq<T>
    requires cut < |s|
  {
    s[..cut] + s[cut + 1..]
  }

  lemma {:induction false} NextBeforeRemove(hs: seq<nat>, cut: nat, j: nat, l: nat)
    requires j < cut < |hs|
    ensures var r := NextAt(hs, j, l);
            NextAt(Removed(hs, cut), j, l) == if r < cut then r else if r == cut then NextAt(hs, cut, l) - 1 else r - 1
  {
    var hs', r := Removed(hs, cut), NextAt(hs, j, l);
    var r' := if r < cut then r else if r == cut then NextAt(hs, cut, l) - 1 else r - 1;
    assert forall k :: 0 <= k < |hs'| ==> hs'[k] == if k < cut then hs[k] else hs[k + 1];
    assert IsNext(hs', j, l, r');
    NextUnique(hs', j, l, r');
  }

  lemma {:induction false} NextBehindRemove(hs: seq<nat>, cut: nat, j: nat, l: nat)
    requires 1 <= cut < j < |hs|
    ensures NextAt(Removed(hs, cut), j - 1, l) == NextAt(hs, j, l) - 1
  {
    var hs', r := Removed(hs, cut), NextAt(hs, j, l);
    assert forall k :: 0 <= k < |hs'| ==> hs'[k] == if k < cut then hs[k] else hs[k + 1];
    assert IsNext(hs', j - 1, l, r - 1);
    NextUnique(hs', j - 1, l, r - 1);
  }
}
