/** Per-peer replication progress as a value.  `inflights` lists the in-flight indices oldest first. */
module ProgressSpec {
  import opened Bytes

  datatype ProgressState = Probe | Replicate

  datatype Progress = Progress(
    matchIndex: nat, nextIndex: nat, state: ProgressState, paused: bool,
    inflights: seq<nat>, capacity: nat)

  function Reset(p: Progress, lastIndex: nat): Progress {
    Progress(0, lastIndex + 1, Probe, false, [], p.capacity)
  }

  function Full(p: Progress): bool { |p.inflights| == p.capacity }

  /** Drop the leading in-flight indices that `to` acknowledges. */
  function FreeTo(q: seq<nat>, to: nat): seq<nat> {
    if q == [] || to < q[0] then q else FreeTo(q[1..], to)
  }

  function Update(p: Progress, lastIndex: nat): Progress {
    var matched := p.(matchIndex := Max(p.matchIndex, lastIndex));
    if p.state == Replicate
    then matched.(nextIndex := lastIndex + 1, inflights := FreeTo(p.inflights, lastIndex))
    else matched
  }

  /** A rejection of the append that followed index `rejected`; `hint` is the follower's last index. */
  function MaybeDecr(p: Progress, rejected: nat, hint: nat): Progress {
    if p.state == Replicate then
      if rejected <= p.matchIndex then p else p.(nextIndex := p.matchIndex + 1)
    else if rejected < p.nextIndex - 1 then p
    else p.(nextIndex := Max(1, if hint < rejected then hint + 1 else rejected))
  }

  function BecomeProbe(p: Progress): Progress { p.(state := Probe, paused := false) }

  function BecomeReplicate(p: Progress): Progress {
    p.(state := Replicate, paused := false, nextIndex := p.matchIndex + 1, inflights := [])
  }
}
