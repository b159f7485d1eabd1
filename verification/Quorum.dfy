/** The quorum guard and the election of a failover (internal/failover/failover.go:145-210). */
module Quorum {
  import opened Optional
  import opened Fleet

  /** Reachable replicas required before a promotion: a strict majority of all members, the dead
      primary included, with the documented exception of a single replica. */
  function Needed(replicas: nat): (n: nat)
    ensures n >= 1
    ensures replicas != 1 ==> 2 * n > replicas + 1 && 2 * (n - 1) <= replicas + 1
  {
    if replicas == 1 then 1 else (replicas + 1) / 2 + 1
  }

  /** The replicas that answered, given the outcome of each probe. */
  ghost function Answering(replicas: seq<InstanceId>, answers: seq<bool>): set<InstanceId>
    requires |answers| == |replicas|
  {
    set k | 0 <= k < |replicas| && answers[k] :: replicas[k]
  }

  lemma AnsweringGrows(replicas: seq<InstanceId>, answers: seq<bool>, k: nat)
    requires |answers| == |replicas| && k < |replicas| && Distinct(replicas)
    ensures var before := Answering(replicas[..k], answers[..k]);
            var after := Answering(replicas[..k + 1], answers[..k + 1]);
            |after| == |before| + (if answers[k] then 1 else 0)
  {
    var before := Answering(replicas[..k], answers[..k]);
    var after := Answering(replicas[..k + 1], answers[..k + 1]);
    assert replicas[k] !in before;
    forall i ensures i in after <==> i in before || (answers[k] && i == replicas[k]) {
      if i in before {
        var m :| 0 <= m < k && answers[m] && replicas[m] == i;
        assert answers[..k + 1][m] && replicas[..k + 1][m] == i;
      }
      if answers[k] && i == replicas[k] {
        assert answers[..k + 1][k] && replicas[..k + 1][k] == i;
      }
      if i in after {
        var m :| 0 <= m < k + 1 && answers[m] && replicas[m] == i;
        if m < k { assert answers[..k][m] && replicas[..k][m] == i; }
      }
    }
    assert after == if answers[k] then before + {replicas[k]} else before;
  }

  /** The guard's loop: it lets the failover through exactly when enough distinct replicas answered. */
  method Guard(replicas: seq<InstanceId>, answers: seq<bool>) returns (pass: bool)
    requires |answers| == |replicas| && Distinct(replicas)
    ensures pass <==> |Answering(replicas, answers)| >= Needed(|replicas|)
  {
    var reachable := 0;
    for k := 0 to |replicas|
      invariant reachable == |Answering(replicas[..k], answers[..k])|
    {
      AnsweringGrows(replicas, answers, k);
      if answers[k] {
        reachable := reachable + 1;
      }
    }
    assert replicas[..|replicas|] == replicas && answers[..|replicas|] == answers;
    pass := reachable >= Needed(|replicas|);
  }

  lemma UnionBound<T>(a: set<T>, b: set<T>, all: set<T>)
    requires a <= all && b <= all && a !! b
    ensures |a| + |b| <= |all|
  {
    assert |a + b| == |a| + |b|;
    SubsetSize(a + b, all);
  }

  lemma {:induction false} SubsetSize<T>(a: set<T>, b: set<T>)
    requires a <= b
    ensures |a| <= |b|
  {
    if a != {} {
      var x :| x in a;
      SubsetSize(a - {x}, b - {x});
    }
  }

  /** Two reachable sets that both pass the guard share a replica, and the members outside a passing
      set, the old primary among them, are not a majority.  Without replicas nothing passes. */
  lemma QuorumIntersection(replicas: set<InstanceId>, primary: InstanceId, a: set<InstanceId>, b: set<InstanceId>)
    requires primary !in replicas && a <= replicas && b <= replicas
    requires |a| >= Needed(|replicas|)
    ensures replicas != {}
    ensures |b| >= Needed(|replicas|) ==> a * b != {}
    ensures |replicas| >= 2 ==> 2 * |(replicas + {primary}) - a| < |replicas + {primary}|
  {
    SubsetSize(a, replicas);
    if |b| >= Needed(|replicas|) && a * b == {} {
      forall x | x in a ensures x !in b {
        assert x !in a * b;
      }
      UnionBound(a, b, replicas);
    }
    var rest := (replicas + {primary}) - a;
    assert rest + a == replicas + {primary} && rest !! a;
    assert |rest| + |a| == |rest + a|;
  }

  /** The two sides of one partition cannot both promote. */
  lemma OneSidePromotes(replicas: set<InstanceId>, left: set<InstanceId>, right: set<InstanceId>,
                        a: set<InstanceId>, b: set<InstanceId>)
    requires left !! right && a <= replicas * left && b <= replicas * right
    ensures !(|a| >= Needed(|replicas|) && |b| >= Needed(|replicas|))
  {
    if |a| >= Needed(|replicas|) && |b| >= Needed(|replicas|) {
      UnionBound(a, b, replicas);
      SubsetSize(a, replicas);
    }
  }

  // ---------- the election ----------

  /** What a probe of one replica returned: whether it answered, and its replay position if the
      query and the parse succeeded. */
  datatype Probe = Probe(answered: bool, lsn: Option<int>)

  predicate Eligible(p: Probe) {
    p.answered && p.lsn.Some? && p.lsn.value > 0
  }

  /** `best` is the first of the eligible probes with the highest position; none means there are none. */
  ghost predicate Winner(probes: seq<Probe>, best: Option<nat>) {
    match best
    case None => forall k | 0 <= k < |probes| :: !Eligible(probes[k])
    case Some(b) =>
      && b < |probes| && Eligible(probes[b])
      && forall k | 0 <= k < |probes| && Eligible(probes[k]) ::
           && probes[k].lsn.value <= probes[b].lsn.value
           && (k < b ==> probes[k].lsn.value < probes[b].lsn.value)
  }

  /** The election's loop. */
  method Elect(probes: seq<Probe>) returns (best: Option<nat>)
    ensures Winner(probes, best)
  {
    best := None;
    var bestLsn := 0;
    for k := 0 to |probes|
      invariant Winner(probes[..k], best)
      invariant bestLsn == if best.Some? then probes[best.value].lsn.value else 0
    {
      if probes[k].answered && probes[k].lsn.Some? && probes[k].lsn.value > 0 {
        if probes[k].lsn.value > bestLsn {
          bestLsn, best := probes[k].lsn.value, Some(k);
        }
      }
      assert probes[..k + 1] == probes[..k] + [probes[k]];
    }
    assert probes[..|probes|] == probes;
  }

  /** The winner's history extends that of every eligible replica, if each of these replayed a prefix of one
      write-ahead log and reports its length. */
  lemma LongestEligible(wal: seq<int>, histories: seq<seq<int>>, probes: seq<Probe>, b: nat)
    requires |histories| == |probes| && Winner(probes, Some(b))
    requires forall k | 0 <= k < |probes| && Eligible(probes[k]) ::
               histories[k] <= wal && probes[k].lsn.value == |histories[k]|
    ensures forall k | 0 <= k < |probes| && Eligible(probes[k]) :: histories[k] <= histories[b]
  {
    forall k | 0 <= k < |probes| && Eligible(probes[k]) ensures histories[k] <= histories[b] {
      assert histories[k] == wal[..|histories[k]|] && histories[b] == wal[..|histories[b]|];
    }
  }

  /** Election keeps the longest history: when every replica replayed a prefix of one write-ahead
      log and reports its length, the winner's history extends that of every eligible replica, and
      the election fails only when no replica that could be read has replayed anything. */
  lemma LongestHistory(wal: seq<int>, histories: seq<seq<int>>, probes: seq<Probe>, best: Option<nat>)
    requires |histories| == |probes| && Winner(probes, best)
    requires forall k | 0 <= k < |probes| :: histories[k] <= wal
    requires forall k | 0 <= k < |probes| && probes[k].lsn.Some? :: probes[k].lsn.value == |histories[k]|
    ensures best.Some? ==> forall k | 0 <= k < |probes| && Eligible(probes[k]) :: histories[k] <= histories[best.value]
    ensures best.None? <==>
              forall k | 0 <= k < |probes| && probes[k].answered && probes[k].lsn.Some? :: histories[k] == []
  {
    if best.Some? {
      LongestEligible(wal, histories, probes, best.value);
      assert histories[best.value] != [];
    } else {
      forall k | 0 <= k < |probes| && probes[k].answered && probes[k].lsn.Some? ensures histories[k] == [] {
        assert !Eligible(probes[k]);
      }
    }
  }
}
