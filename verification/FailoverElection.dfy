/** What the probes of a failover amount to: in every run, a failover that goes on to fence has heard
    from enough distinct replicas and has picked the winner of the election (internal/failover/
    failover.go:145-217).  This joins the protocol's steps to the guard and the election of `Quorum`. */
module FailoverElection {
  import opened Optional
  import opened Fleet
  import opened Quorum
  import opened FailoverProtocol

  /** The outcome of the guard's next probe. */
  predicate GuardProbe(s: State, ch: Choice)
    requires s.pc.Probing? && s.pc.todo != []
  {
    s.pc.todo[0] in s.pc.job.rows && Answers(s.w, s.pc.job.rows[s.pc.todo[0]], ch.ok)
  }

  /** The outcome of the election's next probe; a position that could not be read is not above zero. */
  function ElectionProbe(s: State, ch: Choice): Probe
    requires s.pc.Electing? && s.pc.todo != []
  {
    Probe(s.pc.todo[0] in s.pc.job.rows && Answers(s.w, s.pc.job.rows[s.pc.todo[0]], ch.ok), Some(ch.lsn))
  }

  /** The guard's probes of the failover under way. */
  function Answered(s: State, events: seq<Event>): seq<bool> {
    if events == [] then []
    else
      var front, e := events[..|events| - 1], events[|events| - 1];
      var t := Run(s, front);
      if !e.Controller? || (t.pc.Probing? && t.pc.todo == []) || t.pc.Electing? then Answered(s, front)
      else if t.pc.Probing? then Answered(s, front) + [GuardProbe(t, e.ch)]
      else []
  }

  /** The election's probes of the failover under way. */
  function Probed(s: State, events: seq<Event>): seq<Probe> {
    if events == [] then []
    else
      var front, e := events[..|events| - 1], events[|events| - 1];
      var t := Run(s, front);
      if !e.Controller? || (t.pc.Electing? && t.pc.todo == []) then Probed(s, front)
      else if t.pc.Electing? then Probed(s, front) + [ElectionProbe(t, e.ch)]
      else []
  }

  // ---------- the replicas of a job are distinct ----------

  lemma RecloneOrder(w: World, run: Rejoin, todo: seq<InstanceId>, at: Stage, ch: Choice)
    requires todo != []
    ensures RecloneStep(w, run, todo, at, ch).0.order == w.order
  {
  }

  lemma ControllerOrder(w: World, pc: Pc, ch: Choice)
    ensures ControllerStep(w, pc, ch).0.order == w.order
  {
    if pc.Recloning? && pc.todo != [] {
      RecloneOrder(w, pc.run, pc.todo, pc.at, ch);
    }
  }

  lemma ReconcilerOrder(w: World, rec: Pass, ch: Choice)
    ensures ReconcilerStep(w, rec, ch).0.order == w.order
  {
  }

  lemma OrderFixed(s: State, e: Event)
    ensures Step(s, e).w.order == s.w.order
  {
    match e
    case Controller(ch) => ControllerOrder(s.w, s.pc, ch);
    case Reconciler(ch) => ReconcilerOrder(s.w, s.rec, ch);
    case _ =>
  }

  /** The replicas a pass works on are distinct, from the moment it has read them. */
  ghost predicate JobDistinct(s: State) {
    Distinct(s.w.order) && ((s.pc.Checking? || s.pc.Probing? || s.pc.Electing?) ==> Distinct(s.pc.job.replicas))
  }

  lemma {:induction false} JobsDistinct(s: State, events: seq<Event>)
    requires Initial(s)
    ensures JobDistinct(Run(s, events))
  {
    if events != [] {
      var front, e := events[..|events| - 1], events[|events| - 1];
      JobsDistinct(s, front);
      OrderFixed(Run(s, front), e);
      JobStep(Run(s, front), e);
    }
  }

  lemma JobStep(s: State, e: Event)
    requires JobDistinct(s)
    ensures JobDistinct(Step(s, e))
  {
    OrderFixed(s, e);
    if e.Controller? {
      JobControllerStep(s.w, s.pc, e.ch);
    }
  }

  lemma JobControllerStep(w: World, pc: Pc, ch: Choice)
    requires Distinct(w.order) && ((pc.Checking? || pc.Probing? || pc.Electing?) ==> Distinct(pc.job.replicas))
    ensures var pc' := ControllerStep(w, pc, ch).1;
            pc'.Checking? || pc'.Probing? || pc'.Electing? ==> Distinct(pc'.job.replicas)
  {
  }

  // ---------- the guard ----------

  /** The probes so far, and the count the guard keeps of them. */
  ghost predicate Probing(job: Job, todo: seq<InstanceId>, up: nat, answered: seq<bool>) {
    && |answered| <= |job.replicas| && todo == job.replicas[|answered|..]
    && Distinct(job.replicas) && up == |Answering(job.replicas[..|answered|], answered)|
  }

  ghost predicate Passed(job: Job, answered: seq<bool>) {
    |answered| == |job.replicas| && |Answering(job.replicas, answered)| >= Needed(|job.replicas|)
  }

  lemma ProbeOnce(job: Job, todo: seq<InstanceId>, up: nat, answered: seq<bool>, hit: bool)
    requires Probing(job, todo, up, answered) && todo != []
    ensures Probing(job, todo[1..], if hit then up + 1 else up, answered + [hit])
  {
    var k, more := |answered|, answered + [hit];
    var full := more + seq(|job.replicas| - k - 1, _ => false);
    AnsweringGrows(job.replicas, full, k);
    assert full[..k] == answered && full[..k + 1] == more;
  }

  lemma ProbesDone(job: Job, up: nat, answered: seq<bool>)
    requires Probing(job, [], up, answered) && up >= Needed(|job.replicas|)
    ensures Passed(job, answered)
  {
    assert |job.replicas[|answered|..]| == |job.replicas| - |answered|;
    assert job.replicas[..|answered|] == job.replicas;
  }

  lemma ProbesStart(job: Job)
    requires Distinct(job.replicas)
    ensures Probing(job, job.replicas, 0, [])
  {
    assert Answering(job.replicas[..0], []) == {};
  }

  ghost predicate GuardInv(s: State, answered: seq<bool>) {
    match s.pc
    case Probing(job, todo, up) => Probing(job, todo, up, answered)
    case Electing(job, _, _, _) => Passed(job, answered)
    case Fencing(job, _) => Passed(job, answered)
    case _ => true
  }

  lemma GuardStep(s: State, e: Event, answered: seq<bool>, answered': seq<bool>)
    requires GuardInv(s, answered) && (s.pc.Checking? ==> Distinct(s.pc.job.replicas))
    requires answered' ==
             if !e.Controller? || (s.pc.Probing? && s.pc.todo == []) || s.pc.Electing? then answered
             else if s.pc.Probing? then answered + [GuardProbe(s, e.ch)] else []
    ensures GuardInv(Step(s, e), answered')
  {
    if e.Controller? && s.pc.Probing? {
      if s.pc.todo != [] {
        ProbeOnce(s.pc.job, s.pc.todo, s.pc.up, answered, GuardProbe(s, e.ch));
      } else if s.pc.up >= Needed(|s.pc.job.replicas|) {
        ProbesDone(s.pc.job, s.pc.up, answered);
      }
    } else if e.Controller? && s.pc.Checking? {
      ProbesStart(s.pc.job);
    }
  }

  lemma {:induction false} GuardRun(s: State, events: seq<Event>)
    requires Initial(s)
    ensures GuardInv(Run(s, events), Answered(s, events))
  {
    if events != [] {
      var front := events[..|events| - 1];
      GuardRun(s, front);
      JobsDistinct(s, front);
      GuardStep(Run(s, front), events[|events| - 1], Answered(s, front), Answered(s, events));
    }
  }

  // ---------- the election ----------

  /** The best so far is the winner of the probes so far. */
  ghost predicate Leads(job: Job, probes: seq<Probe>, best: Option<InstanceId>, lsn: int) {
    && |probes| <= |job.replicas|
    && (best.None? ==> lsn == 0 && Winner(probes, None))
    && (best.Some? ==> exists k :: LeadsAt(job, probes, best.value, lsn, k))
  }

  ghost predicate LeadsAt(job: Job, probes: seq<Probe>, best: InstanceId, lsn: int, k: nat) {
    && k < |probes| <= |job.replicas| && Winner(probes, Some(k))
    && job.replicas[k] == best && probes[k].lsn == Some(lsn)
  }

  lemma LeadOnce(job: Job, probes: seq<Probe>, best: Option<InstanceId>, lsn: int, p: Probe)
    requires Leads(job, probes, best, lsn) && |probes| < |job.replicas| && p.lsn.Some?
    ensures if p.answered && p.lsn.value > lsn then Leads(job, probes + [p], Some(job.replicas[|probes|]), p.lsn.value)
            else Leads(job, probes + [p], best, lsn)
  {
    var more := probes + [p];
    if p.answered && p.lsn.value > lsn {
      assert lsn >= 0 by {
        if best.Some? { var k :| LeadsAt(job, probes, best.value, lsn, k); }
      }
      assert LeadsAt(job, more, job.replicas[|probes|], p.lsn.value, |probes|) by {
        NewLead(probes, best, lsn, p, job);
      }
    } else if best.Some? {
      var k :| LeadsAt(job, probes, best.value, lsn, k);
      assert LeadsAt(job, more, best.value, lsn, k);
    }
  }

  lemma NewLead(probes: seq<Probe>, best: Option<InstanceId>, lsn: int, p: Probe, job: Job)
    requires Leads(job, probes, best, lsn) && lsn >= 0 && p.answered && p.lsn.Some? && p.lsn.value > lsn
    ensures Winner(probes + [p], Some(|probes|))
  {
    if best.Some? {
      var k :| LeadsAt(job, probes, best.value, lsn, k);
    }
  }

  ghost predicate ElectionInv(s: State, probes: seq<Probe>) {
    match s.pc
    case Electing(job, todo, best, lsn) =>
      |probes| <= |job.replicas| && todo == job.replicas[|probes|..] && Leads(job, probes, best, lsn)
    case Fencing(job, newP) => |probes| == |job.replicas| && exists lsn :: Leads(job, probes, Some(newP), lsn)
    case _ => true
  }

  lemma ElectionStep(s: State, e: Event, probes: seq<Probe>, probes': seq<Probe>)
    requires ElectionInv(s, probes)
    requires probes' ==
             if !e.Controller? || (s.pc.Electing? && s.pc.todo == []) then probes
             else if s.pc.Electing? then probes + [ElectionProbe(s, e.ch)] else []
    ensures ElectionInv(Step(s, e), probes')
  {
    if e.Controller? && s.pc.Electing? {
      if s.pc.todo != [] {
        assert s.pc.todo[0] == s.pc.job.replicas[|probes|];
        LeadOnce(s.pc.job, probes, s.pc.best, s.pc.bestLsn, ElectionProbe(s, e.ch));
        assert s.pc.todo[1..] == s.pc.job.replicas[|probes| + 1..];
      } else {
        assert |s.pc.job.replicas[|probes|..]| == |s.pc.job.replicas| - |probes|;
        if s.pc.best.Some? {
          assert Leads(s.pc.job, probes, Some(s.pc.best.value), s.pc.bestLsn);
        }
      }
    }
  }

  lemma {:induction false} ElectionRun(s: State, events: seq<Event>)
    ensures Initial(s) ==> ElectionInv(Run(s, events), Probed(s, events))
  {
    if events != [] && Initial(s) {
      var front := events[..|events| - 1];
      ElectionRun(s, front);
      ElectionStep(Run(s, front), events[|events| - 1], Probed(s, front), Probed(s, events));
    }
  }

  /** In every run, a failover about to fence has had enough distinct replicas answer the guard, and its
      candidate is the winner of the election: the first of the eligible replicas with the highest
      position. */
  lemma FencesForTheWinner(s: State, events: seq<Event>) returns (k: nat)
    requires Initial(s) && Run(s, events).pc.Fencing?
    ensures var pc := Run(s, events).pc; var answered := Answered(s, events); var probes := Probed(s, events);
            && |answered| == |pc.job.replicas| == |probes|
            && |Answering(pc.job.replicas, answered)| >= Needed(|pc.job.replicas|)
            && k < |probes| && pc.job.replicas[k] == pc.newP && Winner(probes, Some(k))
  {
    GuardRun(s, events);
    ElectionRun(s, events);
    var pc, probes := Run(s, events).pc, Probed(s, events);
    var lsn :| Leads(pc.job, probes, Some(pc.newP), lsn);
    k :| LeadsAt(pc.job, probes, pc.newP, lsn, k);
  }

  /** In every run about to fence, if each eligible replica had replayed a prefix of one write-ahead log when
      it was probed and reported its length, the candidate's history extends all of theirs, so fencing the
      primary and promoting the candidate loses nothing that any of them had. */
  lemma CandidateLosesNothing(s: State, events: seq<Event>, wal: seq<int>, histories: seq<seq<int>>) returns (k: nat)
    requires Initial(s) && Run(s, events).pc.Fencing? && |histories| == |Probed(s, events)|
    requires forall j | 0 <= j < |histories| && Eligible(Probed(s, events)[j]) ::
               histories[j] <= wal && Probed(s, events)[j].lsn.value == |histories[j]|
    ensures var pc := Run(s, events).pc;
            && k < |histories| == |pc.job.replicas| && pc.job.replicas[k] == pc.newP
            && Eligible(Probed(s, events)[k])
            && forall j | 0 <= j < |histories| && Eligible(Probed(s, events)[j]) :: histories[j] <= histories[k]
  {
    k := FencesForTheWinner(s, events);
    LongestEligible(wal, histories, Probed(s, events), k);
  }
}
