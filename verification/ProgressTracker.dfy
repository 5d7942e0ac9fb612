/** Per-peer progress with its ring buffer of in-flight indices. */
module ProgressTracker {
  import opened Bytes
  import P = ProgressSpec

  /** A ring buffer; Queue() lists the in-flight indices oldest first. */
  class Inflights {
    const buffer: array<nat>
    var head: nat
    var count: nat

    ghost predicate Valid()
      reads this
    {
      count <= buffer.Length && (head < buffer.Length || (head == 0 && buffer.Length == 0))
    }

    /** The slot i places behind the head. */
    function Slot(i: nat): (k: nat)
      requires Valid() && i < buffer.Length
      reads this
      ensures k < buffer.Length
    {
      if head + i < buffer.Length then head + i else head + i - buffer.Length
    }

    ghost function Queue(): (q: seq<nat>)
      requires Valid()
      reads this, buffer
      ensures |q| == count
    {
      seq(count, i requires Valid() && 0 <= i < count reads this, buffer => buffer[Slot(i)])
    }

    constructor (capacity: nat)
      ensures Valid() && fresh(buffer) && buffer.Length == capacity && Queue() == []
    {
      buffer := new nat[capacity](_ => 0);
      head, count := 0, 0;
    }

    predicate Full()
      reads this
    {
      count == buffer.Length
    }

    /** The caller checks Full() first; the source aborts otherwise. */
    method Add(index: nat)
      requires Valid() && !Full()
      modifies this, buffer
      ensures Valid() && Queue() == old(Queue()) + [index]
    {
      var next := head + count;
      if next >= buffer.Length { next := next - buffer.Length; }
      buffer[next] := index;
      count := count + 1;
      assert forall i :: 0 <= i < old(count) ==> Slot(i) != next;
    }

    /** Frees everything from the front up to and including `to`. */
    method FreeTo(to: nat)
      requires Valid()
      modifies this
      ensures Valid() && Queue() == P.FreeTo(old(Queue()), to)
    {
      if count == 0 { return; }
      ghost var q := Queue();
      var i, idx := 0, head;
      while i < count
        invariant 0 <= i <= count && head == old(head) && count == old(count) && Queue() == q
        invariant i < buffer.Length ==> idx == Slot(i)
        invariant i == buffer.Length ==> idx == head
        invariant P.FreeTo(q, to) == P.FreeTo(q[i..], to)
      {
        if to < buffer[idx] { break; }
        assert q[i] == buffer[idx] && q[i..][1..] == q[i + 1..];
        idx := idx + 1;
        if idx >= buffer.Length { idx := idx - buffer.Length; }
        i := i + 1;
      }
      assert P.FreeTo(q, to) == q[i..];
      count := count - i;
      head := if count == 0 then 0 else idx;
      assert Queue() == q[i..];
    }

    method Reset()
      modifies this
      ensures Valid() && Queue() == []
    {
      count, head := 0, 0;
    }
  }

  class ProgressTracker {
    var matchIndex: nat
    var nextIndex: nat
    var state: P.ProgressState
    var paused: bool
    const inflights: Inflights

    ghost predicate Valid()
      reads this, inflights
    {
      inflights.Valid()
    }

    ghost function View(): P.Progress
      requires Valid()
      reads this, inflights, inflights.buffer
    {
      P.Progress(matchIndex, nextIndex, state, paused, inflights.Queue(), inflights.buffer.Length)
    }

    constructor (capacity: nat)
      ensures Valid() && fresh(inflights) && fresh(inflights.buffer)
      ensures View() == P.Progress(0, 0, P.Probe, false, [], capacity)
    {
      matchIndex, nextIndex, state, paused := 0, 0, P.Probe, false;
      inflights := new Inflights(capacity);
    }

    method Reset(lastIndex: nat)
      requires Valid()
      modifies this, inflights
      ensures Valid() && View() == P.Reset(old(View()), lastIndex)
    {
      matchIndex := 0;
      nextIndex := lastIndex + 1;
      state := P.Probe;
      paused := false;
      inflights.Reset();
    }

    method Update(lastIndex: nat)
      requires Valid()
      modifies this, inflights
      ensures Valid() && View() == P.Update(old(View()), lastIndex)
    {
      matchIndex := Max(matchIndex, lastIndex);
      if state == P.Replicate {
        nextIndex := lastIndex + 1;
        inflights.FreeTo(lastIndex);
      }
    }

    /** Whether the rejection was current; only then nextIndex moves. */
    method MaybeDecrFromRejectHint(rejected: nat, hint: nat) returns (current: bool)
      requires Valid()
      modifies this`nextIndex
      ensures Valid() && View() == P.MaybeDecr(old(View()), rejected, hint)
      ensures current == if state == P.Replicate then rejected > matchIndex else rejected >= old(nextIndex) - 1
    {
      if state == P.Replicate {
        if rejected <= matchIndex { return false; }
        nextIndex := matchIndex + 1;
        return true;
      }
      if rejected < nextIndex - 1 { return false; }
      if hint < rejected { nextIndex := hint + 1; } else { nextIndex := rejected; }
      if nextIndex < 1 { nextIndex := 1; }
      return true;
    }

    method BecomeProbe()
      requires Valid()
      modifies this`state, this`paused
      ensures Valid() && View() == P.BecomeProbe(old(View()))
    {
      state := P.Probe;
      paused := false;
    }

    method BecomeReplicate()
      requires Valid()
      modifies this, inflights
      ensures Valid() && View() == P.BecomeReplicate(old(View()))
    {
      state := P.Replicate;
      paused := false;
      nextIndex := matchIndex + 1;
      inflights.Reset();
    }
  }
}
