/** Any sequence of operations on a skip list, under any coin flips, answers as a plain map. */
module SkipRuns {
  import opened Bytes
  import opened SkipList
  import S = SkipList

  datatype Op<V> = Insert(key: Int64, value: V) | Remove(key: Int64) | Find(key: Int64)

  datatype Answer<V> = Done(ok: bool) | Missing | Found(value: V)

  function AnswerOf<V>(m: map<Int64, V>, op: Op<V>): Answer<V> {
    match op
    case Insert(k, _) => Done(k !in m)
    case Remove(k) => Done(k in m)
    case Find(k) => if k in m then Found(m[k]) else Missing
  }

  function MapAfter<V>(m: map<Int64, V>, op: Op<V>): map<Int64, V> {
    match op
    case Insert(k, v) => if k in m then m else m[k := v]
    case Remove(k) => m - {k}
    case Find(_) => m
  }

  /** The answers of a plain map to a sequence of operations, and the map afterwards. */
  function MapRun<V>(m: map<Int64, V>, ops: seq<Op<V>>): (seq<Answer<V>>, map<Int64, V>) {
    if ops == [] then ([], m)
    else
      var last := |ops| - 1;
      var (answers, m') := MapRun(m, ops[..last]);
      (answers + [AnswerOf(m', ops[last])], MapAfter(m', ops[last]))
  }

  method Perform<V(0)>(list: SkipList<V>, op: Op<V>) returns (answer: Answer<V>)
    requires list.Valid()
    modifies list, list.all
    ensures list.Valid() && fresh(list.Repr() - old(list.Repr()))
    ensures answer == AnswerOf(old(list.contents), op) && list.contents == MapAfter(old(list.contents), op)
  {
    hide S.SkipList.Valid;
    match op
    case Insert(k, v) =>
      var ok := list.Insert(k, v);
      answer := Done(ok);
    case Remove(k) =>
      var ok := list.Remove(k);
      answer := Done(ok);
    case Find(k) =>
      var n := list.Find(k);
      answer := if n == null then Missing else Found(n.value);
  }

  method RunAll<V(0)>(list: SkipList<V>, ops: seq<Op<V>>) returns (answers: seq<Answer<V>>)
    requires list.Valid()
    modifies list, list.all
    ensures list.Valid() && fresh(list.Repr() - old(list.Repr()))
    ensures (answers, list.contents) == MapRun(old(list.contents), ops)
  {
    hide S.SkipList.Valid;
    answers := [];
    for i := 0 to |ops|
      invariant list.Valid() && fresh(list.Repr() - old(list.Repr()))
      invariant (answers, list.contents) == MapRun(old(list.contents), ops[..i])
    {
      assert ops[..i + 1][..i] == ops[..i];
      var a := Perform(list, ops[i]);
      answers := answers + [a];
    }
    assert ops[..|ops|] == ops;
  }
}
