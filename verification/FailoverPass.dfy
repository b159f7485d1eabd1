/** One failover pass over all clusters and its strike counters (internal/failover/failover.go:74-143). */
module FailoverPass {
  import opened Optional
  import opened Fleet

  type ClusterId = nat

  /** What a pass found out about one listed cluster: not supervised or its members unreadable, its
      primary answering, or its primary missing or silent. */
  datatype Finding = Skipped | Alive | Down

  datatype Listing = Listing(id: ClusterId, finding: Finding)

  /** splitMembers: the last listed member with role primary, and the replicas in listing order. */
  method SplitMembers(order: seq<InstanceId>, rows: map<InstanceId, Row>)
    returns (primary: Option<InstanceId>, replicas: seq<InstanceId>)
    requires forall i :: i in order ==> i in rows
    ensures primary == PrimaryOf(rows, order) && replicas == ReplicasOf(rows, order)
    ensures OnePrimaryRow(rows) ==> forall i :: i in order && rows[i].role == Primary <==> primary == Some(i)
  {
    primary, replicas := None, [];
    for k := 0 to |order|
      invariant primary == PrimaryOf(rows, order[..k]) && replicas == ReplicasOf(rows, order[..k])
    {
      assert order[..k + 1][..k] == order[..k];
      match rows[order[k]].role
      case Primary => primary := Some(order[k]);
      case Replica => replicas := replicas + [order[k]];
    }
    assert order[..|order|] == order;
  }

  // ---------- strikes as a function of the history of checks ----------

  /** Strikes after the checks `h` (true is a failed check), with an attempt every time the count
      reaches the threshold. */
  ghost function Strikes(h: seq<bool>, threshold: nat): nat {
    if h == [] || !h[|h| - 1] then 0
    else
      var n := Strikes(h[..|h| - 1], threshold) + 1;
      if n >= threshold then 0 else n
  }

  /** Check `k` starts a failover. */
  ghost predicate Attempts(h: seq<bool>, k: nat, threshold: nat)
    requires k < |h|
  {
    h[k] && Strikes(h[..k], threshold) + 1 >= threshold
  }

  /** Check `k` restarts the count: the primary answered, or a failover was attempted. */
  ghost predicate Resets(h: seq<bool>, k: nat, threshold: nat)
    requires k < |h|
  {
    !h[k] || Attempts(h, k, threshold)
  }

  /** The strikes count the failed checks since the last reset. */
  lemma {:induction false} StrikesCountBack(h: seq<bool>, threshold: nat)
    requires threshold >= 1
    ensures var n := Strikes(h, threshold);
            && n < threshold && n <= |h|
            && (forall j | |h| - n <= j < |h| :: !Resets(h, j, threshold))
            && (n < |h| ==> Resets(h, |h| - n - 1, threshold))
  {
    if h != [] {
      var p := h[..|h| - 1];
      StrikesCountBack(p, threshold);
      forall j | 0 <= j < |p| ensures Resets(h, j, threshold) <==> Resets(p, j, threshold) {
        assert h[..j] == p[..j];
      }
    }
  }

  /** A check starts a failover exactly when it is the threshold-th consecutive failed check since
      the last good check or the last attempt. */
  lemma AttemptExactlyAtThreshold(h: seq<bool>, k: nat, threshold: nat)
    requires threshold >= 1 && k < |h|
    ensures Attempts(h, k, threshold) <==>
              && h[k] && k + 1 >= threshold
              && (forall j | k + 1 - threshold <= j < k :: !Resets(h, j, threshold))
              && (k + 1 > threshold ==> Resets(h, k - threshold, threshold))
  {
    var p := h[..k];
    StrikesCountBack(p, threshold);
    forall j | 0 <= j < k ensures Resets(h, j, threshold) <==> Resets(p, j, threshold) {
      assert h[..j] == p[..j];
    }
    var n := Strikes(p, threshold);
    if !Attempts(h, k, threshold) && h[k] && k + 1 >= threshold {
      assert n < threshold - 1 && n < k;
      assert Resets(p, k - n - 1, threshold);
    }
  }

  /** One more check. */
  lemma StrikeStep(h: seq<bool>, bad: bool, threshold: nat)
    ensures Strikes(h + [bad], threshold) ==
            if bad && Strikes(h, threshold) + 1 < threshold then Strikes(h, threshold) + 1 else 0
    ensures Attempts(h + [bad], |h|, threshold) <==> bad && Strikes(h, threshold) + 1 >= threshold
  {
    assert (h + [bad])[..|h|] == h;
  }

  type History = map<ClusterId, seq<bool>>

  ghost function Checks(history: History, c: ClusterId): seq<bool> {
    if c in history then history[c] else []
  }

  ghost function Count(failures: map<ClusterId, nat>, c: ClusterId): nat {
    if c in failures then failures[c] else 0
  }

  /** Every counter is the number of strikes its cluster's history has earned. */
  ghost predicate Agrees(failures: map<ClusterId, nat>, history: History, threshold: nat) {
    forall c :: Count(failures, c) == Strikes(Checks(history, c), threshold)
  }

  lemma AgreesAfterCheck(failures: map<ClusterId, nat>, history: History, id: ClusterId, bad: bool, threshold: nat)
    requires Agrees(failures, history, threshold)
    ensures var n := Count(failures, id) + 1;
            Agrees(failures[id := if bad && n < threshold then n else 0],
                history[id := Checks(history, id) + [bad]], threshold)
  {
    var n := Count(failures, id) + 1;
    var failures' := failures[id := if bad && n < threshold then n else 0];
    var history' := history[id := Checks(history, id) + [bad]];
    StrikeStep(Checks(history, id), bad, threshold);
    forall c ensures Count(failures', c) == Strikes(Checks(history', c), threshold) {
      assert Count(failures, c) == Strikes(Checks(history, c), threshold);
    }
  }

  lemma AgreesAfterPrune(failures: map<ClusterId, nat>, history: History, keep: set<ClusterId>, threshold: nat)
    requires Agrees(failures, history, threshold) && threshold >= 1
    ensures Agrees(map c | c in failures && c in keep :: failures[c],
                   map c | c in history && c in keep :: history[c], threshold)
    ensures forall c :: c in failures ==> failures[c] < threshold
  {
    var failures' := map c | c in failures && c in keep :: failures[c];
    var history' := map c | c in history && c in keep :: history[c];
    forall c ensures Count(failures', c) == Strikes(Checks(history', c), threshold) {
      assert Count(failures, c) == Strikes(Checks(history, c), threshold);
    }
    forall c | c in failures ensures failures[c] < threshold {
      assert Count(failures, c) == Strikes(Checks(history, c), threshold);
      StrikesCountBack(Checks(history, c), threshold);
    }
  }

  /** The pass dealt with the listed cluster `l`: its history grew by the check, if there was one,
      and its failover was started exactly if that check attempts one. */
  ghost predicate Handled(l: Listing, before: History, after: History, attempted: bool, threshold: nat) {
    && Checks(after, l.id) == Checks(before, l.id) + (if l.finding == Skipped then [] else [l.finding == Down])
    && (attempted <==> l.finding == Down && Attempts(Checks(after, l.id), |Checks(after, l.id)| - 1, threshold))
  }

  lemma HandledStays(l: Listing, before: History, mid: History, after: History, attempted: bool, threshold: nat)
    requires Handled(l, before, mid, attempted, threshold) && Checks(after, l.id) == Checks(mid, l.id)
    ensures Handled(l, before, after, attempted, threshold)
  {
  }

  /** The first `n` listed clusters have been dealt with. */
  ghost predicate HandledUpTo(listed: seq<Listing>, n: nat, before: History, after: History, started: seq<bool>,
                              threshold: nat)
    requires n <= |listed|
  {
    |started| == n && forall k | 0 <= k < n :: Handled(listed[k], before, after, started[k], threshold)
  }

  /** The same checks are recorded for the listed clusters from `n` on. */
  ghost predicate SameChecks(listed: seq<Listing>, n: nat, m: nat, before: History, after: History)
    requires n <= m <= |listed|
  {
    forall k | n <= k < m :: Checks(after, listed[k].id) == Checks(before, listed[k].id)
  }

  lemma HandledKept(listed: seq<Listing>, n: nat, before: History, mid: History, after: History, started: seq<bool>,
                    threshold: nat)
    requires n <= |listed| && HandledUpTo(listed, n, before, mid, started, threshold)
    requires SameChecks(listed, 0, n, mid, after)
    ensures HandledUpTo(listed, n, before, after, started, threshold)
  {
    forall k | 0 <= k < n ensures Handled(listed[k], before, after, started[k], threshold) {
      HandledStays(listed[k], before, mid, after, started[k], threshold);
    }
  }

  lemma HandledNext(listed: seq<Listing>, n: nat, before: History, mid: History, after: History, started: seq<bool>,
                    strike: bool, threshold: nat)
    requires n < |listed| && forall a, b :: 0 <= a < b < |listed| ==> listed[a].id != listed[b].id
    requires HandledUpTo(listed, n, before, mid, started, threshold) && SameChecks(listed, n, |listed|, before, mid)
    requires Handled(listed[n], mid, after, strike, threshold)
    requires forall c :: c != listed[n].id ==> Checks(after, c) == Checks(mid, c)
    ensures HandledUpTo(listed, n + 1, before, after, started + [strike], threshold)
    ensures SameChecks(listed, n + 1, |listed|, before, after)
  {
    HandledKept(listed, n, before, mid, after, started, threshold);
    assert Checks(mid, listed[n].id) == Checks(before, listed[n].id);
  }

  function Ids(listed: seq<Listing>): set<ClusterId> {
    set k | 0 <= k < |listed| :: listed[k].id
  }

  // ---------- the controller ----------

  class Controller {
    const threshold: nat
    var failures: map<ClusterId, nat>
    /** Per listed cluster, the outcomes of its checks since it was first listed. */
    ghost var history: History

    ghost predicate Valid()
      reads this
    {
      threshold >= 1 && Agrees(failures, history, threshold)
    }

    constructor (configured: int)
      ensures Valid() && failures == map[] && history == map[]
      ensures threshold == if configured < 1 then 3 else configured
    {
      threshold := if configured < 1 then 3 else configured;
      failures := map[];
      history := map[];
    }

    /** One pass; `started[k]` says whether it started a failover for the k-th listed cluster.
        Afterwards every counter is below the threshold and only listed clusters have one. */
    method Run(listed: seq<Listing>) returns (started: seq<bool>)
      requires Valid()
      requires forall a, b :: 0 <= a < b < |listed| ==> listed[a].id != listed[b].id
      modifies this`failures, this`history
      ensures Valid()
      ensures |started| == |listed|
      ensures forall k | 0 <= k < |listed| :: Handled(listed[k], old(history), history, started[k], threshold)
      ensures failures.Keys <= Ids(listed) && forall c :: c in failures ==> failures[c] < threshold
    {
      started := [];
      ghost var before := history;
      for n := 0 to |listed|
        invariant Valid() && HandledUpTo(listed, n, before, history, started, threshold)
        invariant SameChecks(listed, n, |listed|, before, history)
      {
        ghost var mid := history;
        var strike := Record(listed[n]);
        HandledNext(listed, n, before, mid, history, started, strike, threshold);
        started := started + [strike];
      }
      ghost var mid := history;
      Prune(listed);
      HandledKept(listed, |listed|, before, mid, history, started, threshold);
    }

    /** The body of the pass for one cluster. */
    method Record(l: Listing) returns (strike: bool)
      requires Valid()
      modifies this`failures, this`history
      ensures Valid()
      ensures Handled(l, old(history), history, strike, threshold)
      ensures forall c :: c != l.id ==> Checks(history, c) == Checks(old(history), c)
    {
      strike := false;
      if l.finding != Skipped {
        ghost var before := Checks(history, l.id);
        StrikeStep(before, l.finding == Down, threshold);
        AgreesAfterCheck(failures, history, l.id, l.finding == Down, threshold);
        assert Count(failures, l.id) == Strikes(before, threshold);
        history := history[l.id := before + [l.finding == Down]];
        if l.finding == Alive {
          failures := failures[l.id := 0];
        } else {
          var count := (if l.id in failures then failures[l.id] else 0) + 1;
          failures := failures[l.id := if count < threshold then count else 0];
          strike := count >= threshold;
        }
      }
    }

    /** Counters of clusters that are no longer listed are dropped. */
    method Prune(listed: seq<Listing>)
      requires Valid()
      modifies this`failures, this`history
      ensures Valid()
      ensures forall k | 0 <= k < |listed| :: Checks(history, listed[k].id) == Checks(old(history), listed[k].id)
      ensures failures.Keys <= Ids(listed) && forall c :: c in failures ==> failures[c] < threshold
    {
      var live := Ids(listed);
      var todo := failures.Keys;
      while todo != {}
        invariant history == old(history) && todo <= failures.Keys
        invariant failures == map c | c in old(failures) && (c in live || c in todo) :: old(failures)[c]
      {
        var id :| id in todo;
        todo := todo - {id};
        if id !in live {
          failures := failures - {id};
        }
      }
      AgreesAfterPrune(old(failures), history, live, threshold);
      history := map c | c in history && c in live :: history[c];
    }
  }
}
