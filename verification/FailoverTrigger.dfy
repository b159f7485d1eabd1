/** When a failover starts, and what decides whether it goes on (internal/failover/failover.go:87-217): an
    answering primary is left alone, strikes are counted before a silent one is replaced, and the guard and
    the election let a failover through exactly with a quorum and a candidate. */
module FailoverTrigger {
  import opened Optional
  import opened Fleet
  import opened Quorum
  import opened FailoverProtocol
  import opened FailoverElection
  import opened FailoverMark
  import opened FailoverReconcile
  import opened FailoverPass

  /** A running container with this id. */
  ghost predicate Up(w: World, c: ContainerId) {
    exists i :: i in w.containers && w.containers[i] == Container(c, true)
  }

  lemma UpIsRunning(w: World, c: ContainerId)
    requires Registered(w)
    ensures Up(w, c) <==> Exists(w, c) && w.containers[w.born[c]].running
  {
    if Up(w, c) {
      var i :| i in w.containers && w.containers[i] == Container(c, true);
      assert w.born[w.containers[i].id] == i;
    }
  }

  /** A member answers exactly if a container is recorded for it that runs, and the call reports so. */
  lemma AnswersExactly(w: World, row: Row, ok: bool)
    requires Registered(w)
    ensures Answers(w, row, ok) <==> ok && row.cid.Some? && Up(w, row.cid.value)
  {
    if row.cid.Some? {
      UpIsRunning(w, row.cid.value);
    }
  }

  // ---------- beginning a pass ----------

  /** A pass takes up the cluster exactly if it is running or degraded and its members can be read; it then
      works on the rows as they are, the member with role primary, and the members with role replica. */
  lemma TakesUpExactly(s: State, events: seq<Event>, ch: Choice)
    requires Initial(s) && Run(s, events).pc.Idle?
    ensures var t := Run(s, events); var t' := Step(t, Controller(ch));
            && t'.w == t.w && t'.rec == t.rec
            && (t'.pc.Checking? <==> (t.w.status == ClusterRunning || t.w.status == ClusterDegraded) && ch.ok)
            && (!t'.pc.Checking? ==> t'.pc.Idle?)
            && (t'.pc.Checking? ==>
                  && t'.pc.job.rows == t.w.rows && Distinct(t'.pc.job.replicas)
                  && (forall i :: i in t'.pc.job.replicas <==> i in t.w.rows && t.w.rows[i].role == Replica)
                  && (t'.pc.job.oldP.Some? ==>
                        t'.pc.job.oldP.value in t.w.rows && t.w.rows[t'.pc.job.oldP.value].role == Primary)
                  && (t'.pc.job.oldP.None? ==> forall i :: i in t.w.rows ==> t.w.rows[i].role == Replica))
  {
    RunRegular(s, events);
    TakesUp(Run(s, events).w, ch);
  }

  lemma TakesUp(w: World, ch: Choice)
    requires OrderOk(w.order, w.rows.Keys)
    ensures var (w', pc') := BeginStep(w, ch);
            && w' == w && (pc'.Checking? <==> (w.status == ClusterRunning || w.status == ClusterDegraded) && ch.ok)
            && (!pc'.Checking? ==> pc'.Idle?)
            && (pc'.Checking? ==>
                  && pc'.job.rows == w.rows && Distinct(pc'.job.replicas)
                  && (forall i :: i in pc'.job.replicas <==> i in w.rows && w.rows[i].role == Replica)
                  && (pc'.job.oldP.Some? ==>
                        pc'.job.oldP.value in w.rows && w.rows[pc'.job.oldP.value].role == Primary)
                  && (pc'.job.oldP.None? ==> forall i :: i in w.rows ==> w.rows[i].role == Replica))
  {
  }

  // ---------- the check ----------

  /** The rows a pass under way has read contain the primary it found. */
  predicate JobRead(s: State) {
    s.pc.Checking? ==> s.pc.job.oldP.Some? ==> s.pc.job.oldP.value in s.pc.job.rows
  }

  lemma {:induction false} JobsRead(s: State, events: seq<Event>)
    requires Initial(s)
    ensures JobRead(Run(s, events))
  {
    if events != [] {
      JobsRead(s, events[..|events| - 1]);
      ReadsJob(Run(s, events[..|events| - 1]), events[|events| - 1]);
    }
  }

  lemma ReadsJob(s: State, e: Event)
    requires JobRead(s)
    ensures JobRead(Step(s, e))
  {
    if e.Controller? && !s.pc.Idle? {
      OnlyIdleReads(s.w, s.pc, e.ch);
    }
  }

  lemma OnlyIdleReads(w: World, pc: Pc, ch: Choice)
    requires !pc.Idle?
    ensures !ControllerStep(w, pc, ch).1.Checking?
  {
  }

  /** The primary the pass has read cannot be reached: there is none, it has no container recorded, that
      container does not run, or it does not answer. */
  ghost predicate Silent(w: World, job: Job, answers: bool)
    requires job.oldP.Some? ==> job.oldP.value in job.rows
  {
    || job.oldP.None?
    || job.rows[job.oldP.value].cid.None?
    || !Up(w, job.rows[job.oldP.value].cid.value)
    || !answers
  }

  /** In every run: from the check a failover starts if and only if the primary is silent and the threshold is
      reached, and the check itself changes nothing. */
  lemma StartsExactly(s: State, events: seq<Event>, ch: Choice)
    requires Initial(s) && Run(s, events).pc.Checking?
    ensures JobRead(Run(s, events))
    ensures var t := Run(s, events); var t' := Step(t, Controller(ch));
            && t'.w == t.w && t'.rec == t.rec
            && t'.pc == if Silent(t.w, t.pc.job, ch.ok) && ch.done then Probing(t.pc.job, t.pc.job.replicas, 0)
                        else Idle
  {
    var t := Run(s, events);
    JobsRead(s, events);
    RunIds(s, events);
    if t.pc.job.oldP.Some? {
      AnswersExactly(t.w, t.pc.job.rows[t.pc.job.oldP.value], ch.ok);
    }
  }

  /** The checks since the control plane last started, true for a silent primary: the strikes are kept in memory. */
  ghost function Checks(s: State, events: seq<Event>): seq<bool>
    requires Initial(s)
  {
    if events == [] then []
    else
      var front, e := events[..|events| - 1], events[|events| - 1];
      JobsRead(s, front);
      var t := Run(s, front);
      if e.ControlPlaneStop? then []
      else if e.Controller? && t.pc.Checking? then Checks(s, front) + [Silent(t.w, t.pc.job, e.ch.ok)]
      else Checks(s, front)
  }

  /** At every check the threshold is reached exactly when the pass's counter says so. */
  ghost predicate Counting(s: State, events: seq<Event>, threshold: nat)
    requires Initial(s)
  {
    events != [] ==>
      var front, e := events[..|events| - 1], events[|events| - 1];
      && Counting(s, front, threshold)
      && (e.Controller? && Run(s, front).pc.Checking? ==>
            (e.ch.done <==> FailoverPass.Strikes(Checks(s, front), threshold) + 1 >= threshold))
  }

  /** The last check found the primary silent and is the threshold-th in a row since the last reset. */
  ghost predicate LastOfRow(h: seq<bool>, threshold: nat)
    requires h != []
  {
    var k := |h| - 1;
    && h[k] && k + 1 >= threshold
    && (forall j | k + 1 - threshold <= j < k :: !FailoverPass.Resets(h, j, threshold))
    && (k + 1 > threshold ==> FailoverPass.Resets(h, k - threshold, threshold))
  }

  /** A failover starts at a check exactly if it is the threshold-th in a row that found the primary silent,
      counted from the last one that found it answering or started a failover. */
  lemma StartsAtThreshold(s: State, events: seq<Event>, ch: Choice, threshold: nat)
    requires Initial(s) && Run(s, events).pc.Checking? && threshold >= 1
    requires Counting(s, events + [Controller(ch)], threshold)
    ensures var h := Checks(s, events + [Controller(ch)]);
            h != [] && (Step(Run(s, events), Controller(ch)).pc.Probing? <==> LastOfRow(h, threshold))
  {
    OneMoreCheck(s, events, ch, threshold);
    StartsExactly(s, events, ch);
    AtThreshold(Checks(s, events), Checks(s, events + [Controller(ch)]), threshold);
  }

  /** What the counter says about the last check. */
  lemma AtThreshold(front: seq<bool>, h: seq<bool>, threshold: nat)
    requires |h| == |front| + 1 && front == h[..|h| - 1] && threshold >= 1
    ensures h[|h| - 1] && FailoverPass.Strikes(front, threshold) + 1 >= threshold <==> LastOfRow(h, threshold)
  {
    FailoverPass.AttemptExactlyAtThreshold(h, |h| - 1, threshold);
  }

  lemma OneMoreCheck(s: State, events: seq<Event>, ch: Choice, threshold: nat)
    requires Initial(s) && Run(s, events).pc.Checking?
    ensures JobRead(Run(s, events))
    ensures var h, front := Checks(s, events + [Controller(ch)]), Checks(s, events);
            && |h| == |front| + 1 && front == h[..|h| - 1]
            && h[|front|] == Silent(Run(s, events).w, Run(s, events).pc.job, ch.ok)
    ensures Counting(s, events + [Controller(ch)], threshold) ==>
              (ch.done <==> FailoverPass.Strikes(Checks(s, events), threshold) + 1 >= threshold)
  {
    assert (events + [Controller(ch)])[..|events|] == events;
    JobsRead(s, events);
  }

  // ---------- an answering primary is left alone ----------

  /** All along, `p` is the primary, its recorded container `c` runs, and every check of it is answered. */
  ghost predicate Healthy(s: State, events: seq<Event>, p: InstanceId, c: ContainerId) {
    && PrimaryUp(Run(s, events).w, p, c)
    && (events != [] ==>
          var front, e := events[..|events| - 1], events[|events| - 1];
          Healthy(s, front, p, c) && (e.Controller? && Run(s, front).pc.Checking? ==> e.ch.ok))
  }

  ghost predicate PrimaryUp(w: World, p: InstanceId, c: ContainerId) {
    && Registered(w) && p in w.containers && w.containers[p] == Container(c, true)
    && p in w.order && p in w.rows && w.rows[p].role == Primary && w.rows[p].cid == Some(c)
    && forall i :: i in w.rows && w.rows[i].role == Primary ==> i == p
  }

  /** The run without the controller's steps. */
  function Unattended(events: seq<Event>): seq<Event> {
    if events == [] then []
    else
      var e := events[|events| - 1];
      Unattended(events[..|events| - 1]) + (if e.Controller? then [] else [e])
  }

  /** The controller rests or is checking `p` by its container `c`. */
  predicate Resting(pc: Pc, p: InstanceId, c: ContainerId) {
    pc.Idle? || (pc.Checking? && pc.job.oldP == Some(p) && p in pc.job.rows && pc.job.rows[p].cid == Some(c))
  }

  lemma RestsOn(s: State, e: Event, p: InstanceId, c: ContainerId)
    requires Resting(s.pc, p, c) && PrimaryUp(s.w, p, c) && (e.Controller? && s.pc.Checking? ==> e.ch.ok)
    ensures Resting(Step(s, e).pc, p, c)
    ensures e.Controller? ==> Step(s, e).w == s.w && Step(s, e).rec == s.rec
  {
  }

  /** The controller's steps make no difference to the others. */
  lemma WithoutController(s: State, t: State, e: Event)
    requires !e.Controller? && t.w == s.w && t.rec == s.rec
    ensures Step(t, e).w == Step(s, e).w && Step(t, e).rec == Step(s, e).rec
  {
  }

  /** While the primary's container runs and every check is answered, the controller changes nothing: rows,
      containers, volumes, router, statuses and the reconciler's pass are at every point what they would be
      without it. */
  lemma {:induction false} HealthyLeftAlone(s: State, events: seq<Event>, p: InstanceId, c: ContainerId)
    requires s.pc.Idle? && Healthy(s, events, p, c)
    ensures var t := Run(s, events); var u := Run(s, Unattended(events));
            t.w == u.w && t.rec == u.rec && Resting(t.pc, p, c)
  {
    if events != [] {
      var front, e := events[..|events| - 1], events[|events| - 1];
      HealthyLeftAlone(s, front, p, c);
      RestsOn(Run(s, front), e, p, c);
      var rest := Unattended(front);
      if e.Controller? {
        assert Unattended(events) == rest;
      } else {
        assert Unattended(events) == rest + [e] && (rest + [e])[..|rest|] == rest;
        WithoutController(Run(s, front), Run(s, rest), e);
      }
    }
  }

  // ---------- the guard and the election ----------

  /** When all replicas have been probed, the failover goes on to the election exactly if enough distinct ones
      answered, and otherwise ends in error, if that can be written, having changed nothing else. */
  lemma GuardDecides(s: State, events: seq<Event>, ch: Choice)
    requires Initial(s) && Run(s, events).pc.Probing? && Run(s, events).pc.todo == []
    ensures var t := Run(s, events); var t' := Step(t, Controller(ch)); var answered := Answered(s, events);
            && |answered| == |t.pc.job.replicas| && t'.rec == t.rec
            && if |Answering(t.pc.job.replicas, answered)| >= Needed(|t.pc.job.replicas|)
               then t'.pc == Electing(t.pc.job, t.pc.job.replicas, None, 0) && t'.w == t.w
               else t'.pc == Idle && t'.w == t.w.(status := if ch.write then ClusterError else t.w.status)
  {
    GuardRun(s, events);
    var t, answered := Run(s, events), Answered(s, events);
    assert |t.pc.job.replicas[|answered|..]| == |t.pc.job.replicas| - |answered|;
    assert t.pc.job.replicas[..|answered|] == t.pc.job.replicas;
  }

  /** When all replicas have been asked for their positions, the failover goes on to fence for the winner
      exactly if one was eligible, and otherwise ends in error, having changed nothing else. */
  lemma ElectionDecides(s: State, events: seq<Event>, ch: Choice)
    requires Initial(s) && Run(s, events).pc.Electing? && Run(s, events).pc.todo == []
    ensures var t := Run(s, events); var t' := Step(t, Controller(ch)); var probes := Probed(s, events);
            && |probes| == |t.pc.job.replicas| && t'.rec == t.rec
            && if exists k :: 0 <= k < |probes| && Eligible(probes[k])
               then t'.pc.Fencing? && t'.pc.job == t.pc.job && t'.w == t.w
               else t'.pc == Idle && t'.w == t.w.(status := if ch.write then ClusterError else t.w.status)
  {
    ElectionRun(s, events);
    var t, probes := Run(s, events), Probed(s, events);
    assert |t.pc.job.replicas[|probes|..]| == |t.pc.job.replicas| - |probes|;
    if t.pc.best.Some? {
      var k: nat :| LeadsAt(t.pc.job, probes, t.pc.best.value, t.pc.bestLsn, k);
      assert Eligible(probes[k]);
    }
  }
}
