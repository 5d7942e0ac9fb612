/** Every log in the cluster is backed by the leaders' own logs: an entry of term t at index i comes
    with exactly the prefix that the leader of term t had in front of it. */
module Canon {
  import opened RaftTypes
  import opened LogSpec
  import opened Acceptance

  /** For each term that had a leader, the longest log that leader ever had. */
  type Chains = map<nat, seq<Entry>>

  ghost predicate Backed(chain: Chains, log: seq<Entry>, i: nat)
    requires i < |log|
  {
    var t := log[i].term;
    t in chain && i < |chain[t]| && forall j :: 0 <= j <= i ==> log[j] == chain[t][j]
  }

  ghost predicate Canonical(chain: Chains, log: seq<Entry>) {
    forall i :: 0 <= i < |log| ==> Backed(chain, log, i)
  }

  /** Terms keep their chain and chains only grow. */
  ghost predicate Grows(chain: Chains, chain': Chains) {
    forall t :: t in chain ==> t in chain' && chain[t] <= chain'[t]
  }

  ghost predicate ChainsOk(chain: Chains) {
    forall t :: t in chain ==> Numbered(chain[t], 1) && Canonical(chain, chain[t])
  }

  /** Both layers and the logical log are canonical. */
  ghost predicate LogOk(chain: Chains, l: Log) {
    Valid(l) && Canonical(chain, l.stored) && Canonical(chain, Logical(l))
  }

  lemma {:induction false} CanonicalPrefix(chain: Chains, log: seq<Entry>, k: nat)
    requires Canonical(chain, log) && k <= |log|
    ensures Canonical(chain, log[..k])
  {
    forall i | 0 <= i < k ensures Backed(chain, log[..k], i) {
      assert Backed(chain, log, i);
    }
  }

  lemma {:induction false} CanonicalGrows(chain: Chains, chain': Chains, log: seq<Entry>)
    requires Canonical(chain, log) && Grows(chain, chain')
    ensures Canonical(chain', log)
  {
    forall i | 0 <= i < |log| ensures Backed(chain', log, i) {
      assert Backed(chain, log, i);
    }
  }

  lemma {:induction false} LogOkGrows(chain: Chains, chain': Chains, l: Log)
    requires LogOk(chain, l) && Grows(chain, chain')
    ensures LogOk(chain', l)
  {
    CanonicalGrows(chain, chain', l.stored);
    CanonicalGrows(chain, chain', Logical(l));
  }

  /** Two canonical logs that share a term at an index share everything up to it. */
  lemma {:induction false} SameTermSamePrefix(chain: Chains, a: seq<Entry>, b: seq<Entry>, k: nat)
    requires Canonical(chain, a) && Canonical(chain, b)
    requires 1 <= k <= |a| && k <= |b| && a[k - 1].term == b[k - 1].term
    ensures a[..k] == b[..k]
  {
    assert Backed(chain, a, k - 1) && Backed(chain, b, k - 1);
  }

  lemma {:induction false} CanonicalLogsMatch(chain: Chains, a: seq<Entry>, b: seq<Entry>)
    requires Canonical(chain, a) && Canonical(chain, b)
    ensures LogsMatch(a, b)
  {
    forall i | 0 <= i < |a| && i < |b| && a[i].term == b[i].term ensures a[..i + 1] == b[..i + 1] {
      SameTermSamePrefix(chain, a, b, i + 1);
    }
  }

  // ----- what the leader of a term does to its chain -----

  /** A new leader of a term without a chain: its log, perhaps with one entry of its own. */
  lemma {:induction false} NewChain(chain: Chains, t: nat, log: seq<Entry>, own: seq<Entry>)
    requires ChainsOk(chain) && t !in chain && Canonical(chain, log)
    requires |own| <= 1 && (own != [] ==> own[0].term == t)
    requires Numbered(log + own, 1)
    ensures Grows(chain, chain[t := log + own]) && ChainsOk(chain[t := log + own])
    ensures Canonical(chain[t := log + own], log + own)
  {
    var chain' := chain[t := log + own];
    ExtendedCanonical(chain, chain', t, log, own);
    forall u | u in chain' ensures Numbered(chain'[u], 1) && Canonical(chain', chain'[u]) {
      if u != t { CanonicalGrows(chain, chain', chain[u]); }
    }
  }

  /** The leader of a term appends one entry of its own. */
  lemma {:induction false} LongerChain(chain: Chains, t: nat, e: Entry)
    requires ChainsOk(chain) && t in chain && e.term == t
    requires Numbered(chain[t] + [e], 1)
    ensures Grows(chain, chain[t := chain[t] + [e]]) && ChainsOk(chain[t := chain[t] + [e]])
    ensures Canonical(chain[t := chain[t] + [e]], chain[t] + [e])
  {
    var chain' := chain[t := chain[t] + [e]];
    ExtendedCanonical(chain, chain', t, chain[t], [e]);
    forall u | u in chain' ensures Numbered(chain'[u], 1) && Canonical(chain', chain'[u]) {
      if u != t { CanonicalGrows(chain, chain', chain[u]); }
    }
  }

  lemma {:induction false} ExtendedCanonical(chain: Chains, chain': Chains, t: nat, log: seq<Entry>, own: seq<Entry>)
    requires Canonical(chain, log) && Grows(chain, chain') && t in chain' && chain'[t] == log + own
    requires |own| <= 1 && (own != [] ==> own[0].term == t)
    ensures Canonical(chain', log + own)
  {
    forall i | 0 <= i < |log + own| ensures Backed(chain', log + own, i) {
      if i < |log| { assert Backed(chain, log, i); }
    }
  }

  // ----- what an append message does to a follower -----

  /** An append that carries entries carries a run of its leader's chain, with the true previous term. */
  ghost predicate RunOf(leaderLog: seq<Entry>, prev: nat, prevTerm: nat, es: seq<Entry>) {
    es == [] || RunFull(leaderLog, prev, prevTerm, es)
  }

  lemma {:induction false} ReconcileKeepsCanonical(chain: Chains, l: Log, leaderLog: seq<Entry>, prev: nat, es: seq<Entry>)
    requires LogOk(chain, l) && Canonical(chain, leaderLog) && Numbered(leaderLog, 1)
    requires RunOf(leaderLog, prev, TermAt(l, prev), es)
    ensures LogOk(chain, Reconcile(l, prev, es)) && Reconcile(l, prev, es).stored == l.stored
  {
    hide LogsMatch;
    hide Canonical;
    hide ConflictPos;
    hide TruncateAndAppend;
    if ConflictPos(l, es) == |es| {
      TruncationKeepsCanonical(chain, l, prev + |es| + 1);
      hide Logical;
    } else {
      CanonicalLogsMatch(chain, Logical(l), leaderLog);
      CanonicalLogsMatch(chain, l.stored, leaderLog);
      OverwriteAgrees(l, leaderLog, prev, es);
      CanonicalPrefix(chain, leaderLog, prev + |es|);
      hide Logical;
      hide Numbered;
    }
  }

  /** Accepting or rejecting an append from a leader keeps every layer canonical. */
  lemma {:induction false} AppendKeepsCanonical(chain: Chains, l: Log, leaderLog: seq<Entry>,
                             prev: nat, prevTerm: nat, commit: nat, es: seq<Entry>)
    requires LogOk(chain, l) && Canonical(chain, leaderLog) && Numbered(leaderLog, 1)
    requires RunOf(leaderLog, prev, prevTerm, es)
    ensures var l' := MaybeAppend(l, prev, prevTerm, commit, es).0;
            LogOk(chain, l') && l'.stored == l.stored
  {
    if TermAt(l, prev) == prevTerm {
      ReconcileKeepsCanonical(chain, l, leaderLog, prev, es);
    }
  }

  /** Truncation leaves the log, a prefix of it, or the stored log. */
  lemma {:induction false} TruncationKeepsCanonical(chain: Chains, l: Log, from: nat)
    requires LogOk(chain, l)
    ensures LogOk(chain, TruncateFrom(l, from))
  {
    var l' := TruncateFrom(l, from);
    if l'.window != [] && l' != l {
      assert Logical(l') == Logical(l)[..from - 1];
      CanonicalPrefix(chain, Logical(l), from - 1);
    }
  }
}
