/** When the fence lets a failover go on (internal/provision/failover_support.go:59-72): exactly if
    nothing is recorded to fence, or the recorded container still exists and its removal reports
    success.  A container that is gone stays gone, because ids are never reused, so a primary whose
    recorded container has vanished can never be fenced: every failover of it ends in error. */
module FailoverFence {
  import opened Optional
  import opened Fleet
  import opened FailoverProtocol
  import opened FailoverScenarios

  /** The container the fence aims at, if the old primary has one recorded. */
  function Target(job: Job): Option<ContainerId> {
    if job.oldP.Some? && job.oldP.value in job.rows then job.rows[job.oldP.value].cid else None
  }

  lemma FencePasses(s: State, ch: Choice)
    requires s.pc.Fencing?
    ensures var s' := Step(s, Controller(ch)); var target := Target(s.pc.job);
            && (s'.pc.ClearFenced? || s'.pc.Promote? <==> target.None? || (ch.ok && Exists(s.w, target.value)))
            && (!s'.pc.ClearFenced? && !s'.pc.Promote? ==> s'.pc.Idle? && (ch.write ==> s'.w.status == ClusterError))
            && (s'.pc.ClearFenced? ==> !Exists(s'.w, target.value))
  {
  }

  // ---------- ids are never reused ----------

  /** Containers are the old ones or were created since. */
  ghost predicate Aged(w: World, w': World) {
    && w.born <= w'.born
    && forall i :: i in w'.containers ==>
         || (i in w.containers && w'.containers[i].id == w.containers[i].id)
         || w'.containers[i].id >= |w.born|
  }

  lemma RecloneAged(w: World, run: Rejoin, todo: seq<InstanceId>, at: Stage, ch: Choice)
    requires todo != []
    ensures Aged(w, RecloneStep(w, run, todo, at, ch).0)
  {
  }

  lemma ControllerAged(w: World, pc: Pc, ch: Choice)
    ensures Aged(w, ControllerStep(w, pc, ch).0)
  {
    if pc.Recloning? && pc.todo != [] {
      RecloneAged(w, pc.run, pc.todo, pc.at, ch);
    } else if !pc.Fencing? {
      NothingCreated(w, pc, ch);
    }
  }

  /** Apart from the fence and the re-clones no step makes or removes a container. */
  lemma NothingCreated(w: World, pc: Pc, ch: Choice)
    requires !pc.Fencing? && (pc.Recloning? ==> pc.todo == [])
    ensures var w' := ControllerStep(w, pc, ch).0; w'.containers == w.containers && w'.born == w.born
  {
  }

  lemma ReconcilerAged(w: World, rec: Pass, ch: Choice)
    ensures Aged(w, ReconcilerStep(w, rec, ch).0)
  {
  }

  lemma StepAged(s: State, e: Event)
    ensures Aged(s.w, Step(s, e).w)
  {
    match e
    case Controller(ch) => ControllerAged(s.w, s.pc, ch);
    case Reconciler(ch) => ReconcilerAged(s.w, s.rec, ch);
    case _ =>
  }

  lemma {:induction false} GoneStaysGone(s: State, events: seq<Event>, c: ContainerId)
    requires c < |s.w.born| && !Exists(s.w, c)
    ensures c < |Run(s, events).w.born| && !Exists(Run(s, events).w, c)
  {
    if events != [] {
      GoneStaysGone(s, events[..|events| - 1], c);
      StepAged(Run(s, events[..|events| - 1]), events[|events| - 1]);
    }
  }

  /** Once the recorded container of a primary has vanished, no fence aimed at it ever passes. */
  lemma VanishedNeverFenced(s: State, events: seq<Event>, c: ContainerId, ch: Choice)
    requires c < |s.w.born| && !Exists(s.w, c)
    requires Run(s, events).pc.Fencing? && Target(Run(s, events).pc.job) == Some(c)
    ensures var t := Step(Run(s, events), Controller(ch)); t.pc.Idle? && (ch.write ==> t.w.status == ClusterError)
  {
    GoneStaysGone(s, events, c);
    FencePasses(Run(s, events), ch);
  }

  lemma VanishesZero()
    ensures Step(START, Vanish(0)) == State(FENCED, Idle, NoPass)
  {
  }

  lemma TwoLeft()
    ensures TwoAnswer(FENCED) && !Exists(FENCED, 0)
  {
  }

  /** A run reaches that point: the primary's container vanishes, both replicas answer and one of them is
      elected, and the fence still aims at the container that is gone. */
  lemma VanishedReached() returns (events: seq<Event>)
    ensures Initial(START) && Trusted(START, events)
    ensures var t := Run(START, events);
            t.pc.Fencing? && Target(t.pc.job) == Some(0) && 0 < |t.w.born| && !Exists(t.w, 0)
  {
    TrioInitial();
    VanishesZero();
    TwoLeft();
    var s;
    s, events := Go(START, [], Vanish(0), START, true, true);
    events := UpToFence(START, events, FENCED, YES, 1, true, true);
  }
}
