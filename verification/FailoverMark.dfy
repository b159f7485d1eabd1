/** How far the provisioning mark protects a replica that is being re-cloned
    (internal/failover/failover.go:272-277 and internal/reconcile/reconcile.go:71-77).  The reconciler
    leaves a row alone that says provisioning, but it judges by the rows it read at the start of its
    pass.  A marked row stays marked, whatever the controller, the environment and the reconciler do,
    if and only if the pass under way does not threaten it. */
module FailoverMark {
  import opened Fleet
  import opened FailoverProtocol
  import opened FailoverScenarios
  import opened FailoverFence

  /** The controller is between marking `r` and marking it running or failed. */
  predicate Cloning(s: State, r: InstanceId) {
    && s.pc.Recloning? && s.pc.todo != [] && s.pc.todo[0] == r
    && !s.pc.at.MarkProvisioning? && !s.pc.at.MarkError? && !s.pc.at.Reread?
  }

  predicate Marked(s: State, r: InstanceId) {
    r in s.w.rows && s.w.rows[r].status == Provisioning
  }

  /** `r` is being re-cloned in every state of the run. */
  predicate Throughout(s: State, events: seq<Event>, r: InstanceId) {
    Cloning(Run(s, events), r) && (events != [] ==> Throughout(s, events[..|events| - 1], r))
  }

  // ---------- what a pass may still write ----------

  /** Some container of `r` can still be created in this re-clone. */
  predicate Creatable(w: World, at: Stage, r: InstanceId) {
    match at
    case RemoveContainer => r in w.volumes
    case DropVolume => r in w.volumes
    case ClearRuntime => r in w.volumes && (w.volumes[r] == Absent || w.volumes[r] == Empty)
    case PreparePrimary => r in w.volumes && (w.volumes[r] == Absent || w.volumes[r] == Empty)
    case CreateVolume => r in w.volumes && (w.volumes[r] == Absent || w.volumes[r] == Empty)
    case BaseBackup => r in w.volumes && w.volumes[r] == Empty
    case CreateContainer => true
    case _ => false
  }

  /** The pass may write the status of `r` when it comes to it: it will inspect a container that exists,
      or it found none for an instance that was running. */
  predicate Aims(w: World, rows: map<InstanceId, Row>, found: map<InstanceId, ContainerId>, todo: seq<InstanceId>,
                 r: InstanceId)
  {
    && r in todo && r in rows && !LeftAlone(rows[r].status)
    && if r in found then Exists(w, found[r]) else rows[r].status == Running
  }

  /** The pass has read the row of `r` as running or stopped and may still act on it. */
  predicate Threatens(s: State, r: InstanceId)
    requires Cloning(s, r)
  {
    match s.rec
    case NoPass => false
    case Listed(rows) =>
      && r in s.w.order && r in rows && !LeftAlone(rows[r].status)
      && (rows[r].status == Running || r in s.w.containers || Creatable(s.w, s.pc.at, r))
    case Working(rows, found, todo) => Aims(s.w, rows, found, todo, r)
    case Inspected(rows, found, todo, running, _) =>
      && todo != [] && todo[0] in rows && todo[0] in found
      && ((todo[0] == r && rows[r].status != (if running then Running else Stopped))
          || Aims(s.w, rows, found, todo[1..], r))
  }

  // ---------- container ids ----------

  /** Containers are registered under their instance. */
  ghost predicate Registered(w: World) {
    forall i :: i in w.containers ==> w.containers[i].id < |w.born| && w.born[w.containers[i].id] == i
  }

  /** A pass holds ids that were given out. */
  ghost predicate GivenOut(w: World, rec: Pass) {
    rec.Working? || rec.Inspected? ==> forall i :: i in rec.found ==> rec.found[i] < |w.born|
  }

  ghost predicate IdsOk(s: State) {
    Registered(s.w) && GivenOut(s.w, s.rec)
  }

  lemma CloneRegistered(w: World, run: Rejoin, todo: seq<InstanceId>, at: Stage, ch: Choice)
    requires Registered(w) && todo != []
    ensures Registered(RecloneStep(w, run, todo, at, ch).0)
  {
  }

  lemma ControllerRegistered(w: World, pc: Pc, ch: Choice)
    requires Registered(w)
    ensures Registered(ControllerStep(w, pc, ch).0)
  {
    if pc.Recloning? && pc.todo != [] {
      CloneRegistered(w, pc.run, pc.todo, pc.at, ch);
    } else if !pc.Fencing? {
      NothingCreated(w, pc, ch);
    }
  }

  lemma PassGivenOut(w: World, rec: Pass, ch: Choice)
    requires Registered(w) && GivenOut(w, rec)
    ensures GivenOut(w, ReconcilerStep(w, rec, ch).1)
  {
  }

  lemma StepIds(s: State, e: Event)
    requires IdsOk(s)
    ensures IdsOk(Step(s, e))
  {
    StepAged(s, e);
    match e
    case Controller(ch) => ControllerRegistered(s.w, s.pc, ch);
    case Reconciler(ch) => PassGivenOut(s.w, s.rec, ch);
    case _ =>
  }

  lemma {:induction false} RunIds(s: State, events: seq<Event>)
    requires Initial(s)
    ensures IdsOk(Run(s, events))
  {
    if events != [] {
      RunIds(s, events[..|events| - 1]);
      StepIds(Run(s, events[..|events| - 1]), events[|events| - 1]);
    }
  }

  // ---------- an unthreatened mark stays ----------

  lemma AimsAged(w: World, w': World, rows: map<InstanceId, Row>, found: map<InstanceId, ContainerId>,
                 todo: seq<InstanceId>, r: InstanceId)
    requires Aged(w, w') && (r in found ==> found[r] < |w.born|) && Aims(w', rows, found, todo, r)
    ensures Aims(w, rows, found, todo, r)
  {
  }

  lemma ReadsKeepMark(s: State, ch: Choice, r: InstanceId)
    requires Cloning(s, r) && Marked(s, r) && !Threatens(s, r) && (s.rec.NoPass? || s.rec.Listed?)
    ensures Marked(Step(s, Reconciler(ch)), r) && !Threatens(Step(s, Reconciler(ch)), r)
  {
  }

  lemma WorkKeepsMark(s: State, ch: Choice, r: InstanceId)
    requires Cloning(s, r) && Marked(s, r) && !Threatens(s, r) && s.rec.Working?
    ensures Marked(Step(s, Reconciler(ch)), r) && !Threatens(Step(s, Reconciler(ch)), r)
  {
  }

  lemma WritesKeepMark(s: State, ch: Choice, r: InstanceId)
    requires Cloning(s, r) && Marked(s, r) && !Threatens(s, r) && s.rec.Inspected?
    ensures Marked(Step(s, Reconciler(ch)), r) && !Threatens(Step(s, Reconciler(ch)), r)
  {
  }

  lemma PassKeepsMark(s: State, ch: Choice, r: InstanceId)
    requires Cloning(s, r) && Marked(s, r) && !Threatens(s, r)
    ensures Marked(Step(s, Reconciler(ch)), r) && !Threatens(Step(s, Reconciler(ch)), r)
  {
    match s.rec
    case Working(_, _, _) => WorkKeepsMark(s, ch, r);
    case Inspected(_, _, _, _, _) => WritesKeepMark(s, ch, r);
    case _ => ReadsKeepMark(s, ch, r);
  }

  lemma ControllerKeepsMark(s: State, ch: Choice, r: InstanceId)
    requires Cloning(s, r) && Marked(s, r) && Cloning(Step(s, Controller(ch)), r)
    ensures Marked(Step(s, Controller(ch)), r)
    ensures var s' := Step(s, Controller(ch));
            r in s'.w.containers || Creatable(s'.w, s'.pc.at, r) ==> r in s.w.containers || Creatable(s.w, s.pc.at, r)
  {
  }

  lemma EventKeepsMark(s: State, e: Event, r: InstanceId)
    requires Cloning(s, r) && Marked(s, r) && !e.Reconciler? && Cloning(Step(s, e), r)
    ensures Marked(Step(s, e), r) && Step(s, e).rec == s.rec && Step(s, e).w.order == s.w.order
    ensures var s' := Step(s, e);
            r in s'.w.containers || Creatable(s'.w, s'.pc.at, r) ==> r in s.w.containers || Creatable(s.w, s.pc.at, r)
  {
    if e.Controller? {
      ControllerKeepsMark(s, e.ch, r);
    }
  }

  lemma StepKeepsMark(s: State, e: Event, r: InstanceId)
    requires IdsOk(s) && Cloning(s, r) && Marked(s, r) && !Threatens(s, r) && Cloning(Step(s, e), r)
    ensures Marked(Step(s, e), r) && !Threatens(Step(s, e), r)
  {
    if e.Reconciler? {
      PassKeepsMark(s, e.ch, r);
    } else {
      EventKeepsMark(s, e, r);
      StepAged(s, e);
      var w' := Step(s, e).w;
      if s.rec.Working? && Aims(w', s.rec.rows, s.rec.found, s.rec.todo, r) {
        AimsAged(s.w, w', s.rec.rows, s.rec.found, s.rec.todo, r);
      }
    }
  }

  /** While `r` is being re-cloned its row stays marked, whatever the controller, the environment and the
      reconciler do, if the pass under way at the start does not threaten it. */
  lemma {:induction false} MarkStays(s: State, events: seq<Event>, r: InstanceId)
    requires IdsOk(s) && Cloning(s, r) && Marked(s, r) && !Threatens(s, r) && Throughout(s, events, r)
    ensures var t := Run(s, events); IdsOk(t) && Marked(t, r) && !Threatens(t, r)
  {
    if events != [] {
      var front, e := events[..|events| - 1], events[|events| - 1];
      MarkStays(s, front, r);
      StepIds(Run(s, front), e);
      StepKeepsMark(Run(s, front), e, r);
    }
  }

  // ---------- a threatened mark can be lost ----------

  /** One more event during the re-clone. */
  lemma Next(s: State, events: seq<Event>, e: Event, r: InstanceId) returns (more: seq<Event>)
    requires Throughout(s, events, r) && Cloning(Step(Run(s, events), e), r)
    ensures more == events + [e] && Run(s, more) == Step(Run(s, events), e) && Throughout(s, more, r)
  {
    more := events + [e];
    assert more[..|events|] == events;
  }

  /** Every call fails. */
  const FAIL := Choice(false, false, false, 0, Nothing)

  /** A pass in which every call fails comes to `r` without having changed anything. */
  lemma {:induction false} SkipTo(s: State, events: seq<Event>, r: InstanceId) returns (more: seq<Event>)
    requires Throughout(s, events, r) && Run(s, events).rec.Working? && r in Run(s, events).rec.todo
    ensures Throughout(s, more, r)
    ensures var t := Run(s, events); var t' := Run(s, more);
            && t' == t.(rec := t'.rec) && t'.rec.Working? && t'.rec.todo != [] && t'.rec.todo[0] == r
            && t'.rec == Working(t.rec.rows, t.rec.found, t'.rec.todo)
    decreases |Run(s, events).rec.todo|
  {
    more := events;
    if Run(s, events).rec.todo[0] != r {
      more := Next(s, events, Reconciler(FAIL), r);
      more := SkipTo(s, more, r);
    }
  }

  /** The status is about to be written. */
  lemma Strikes(s: State, events: seq<Event>, r: InstanceId) returns (more: seq<Event>)
    requires Throughout(s, events, r)
    requires var t := Run(s, events); Marked(t, r) && t.rec.Inspected? && t.rec.todo != [] && t.rec.todo[0] == r
    requires var rec := Run(s, events).rec;
             r in rec.rows && r in rec.found && rec.rows[r].status != (if rec.running then Running else Stopped)
    ensures Throughout(s, more, r) && !Marked(Run(s, more), r)
  {
    more := events;
    if !Run(s, events).rec.adopted {
      more := Next(s, more, Reconciler(FAIL), r);
    }
    more := Next(s, more, Reconciler(YES), r);
  }

  /** The environment turns the container over, so that its state differs from the row that was read. */
  lemma TurnsOver(s: State, events: seq<Event>, r: InstanceId) returns (more: seq<Event>)
    requires Throughout(s, events, r)
    requires var t := Run(s, events);
             && Marked(t, r) && t.rec.Working? && t.rec.todo != [] && t.rec.todo[0] == r
             && Aims(t.w, t.rec.rows, t.rec.found, t.rec.todo, r) && r in t.rec.found
    ensures Throughout(s, more, r) && !Marked(Run(s, more), r)
  {
    var t := Run(s, events);
    var b := t.w.born[t.rec.found[r]];
    more := Next(s, events, if t.rec.rows[r].status == Running then Crash(b) else Revive(b), r);
    more := Next(s, more, Reconciler(YES), r);
    more := Strikes(s, more, r);
  }

  lemma AimedLost(s: State, events: seq<Event>, r: InstanceId) returns (more: seq<Event>)
    requires Throughout(s, events, r)
    requires var t := Run(s, events);
             Marked(t, r) && t.rec.Working? && Aims(t.w, t.rec.rows, t.rec.found, t.rec.todo, r)
    ensures Throughout(s, more, r) && !Marked(Run(s, more), r)
  {
    more := SkipTo(s, events, r);
    if r in Run(s, events).rec.found {
      more := TurnsOver(s, more, r);
    } else {
      more := Next(s, more, Reconciler(YES), r);
    }
  }

  lemma InspectedLost(s: State, r: InstanceId) returns (more: seq<Event>)
    requires Cloning(s, r) && Marked(s, r) && s.rec.Inspected? && Threatens(s, r)
    ensures Throughout(s, more, r) && !Marked(Run(s, more), r)
  {
    more := [];
    if s.rec.todo[0] == r && s.rec.rows[r].status != (if s.rec.running then Running else Stopped) {
      more := Strikes(s, more, r);
    } else {
      if !s.rec.adopted {
        more := Next(s, more, Reconciler(FAIL), r);
      }
      more := Next(s, more, Reconciler(FAIL), r);
      more := AimedLost(s, more, r);
    }
  }

  /** The re-clone goes on, every call working, until `r` has its new container. */
  lemma {:induction false} Created(s: State, events: seq<Event>, r: InstanceId) returns (more: seq<Event>)
    requires Throughout(s, events, r)
    requires var t := Run(s, events); r !in t.w.containers && Creatable(t.w, t.pc.at, r) && IdsOk(t) && Marked(t, r)
    ensures Throughout(s, more, r)
    ensures var t := Run(s, events); var t' := Run(s, more);
            r in t'.w.containers && t'.rec == t.rec && t'.w.order == t.w.order && IdsOk(t') && Marked(t', r)
    decreases Rank(Run(s, events).pc.at)
  {
    StepIds(Run(s, events), Controller(YES));
    more := Next(s, events, Controller(YES), r);
    if !Run(s, events).pc.at.CreateContainer? {
      more := Created(s, more, r);
    }
  }

  /** Steps left before the container is created. */
  function Rank(at: Stage): nat {
    match at
    case RemoveContainer => 6
    case DropVolume => 5
    case ClearRuntime => 4
    case PreparePrimary => 3
    case CreateVolume => 2
    case BaseBackup => 1
    case _ => 0
  }

  lemma ListedLost(s: State, r: InstanceId) returns (more: seq<Event>)
    requires IdsOk(s) && Cloning(s, r) && Marked(s, r) && s.rec.Listed? && Threatens(s, r)
    ensures Throughout(s, more, r) && !Marked(Run(s, more), r)
  {
    more := [];
    if s.rec.rows[r].status == Running {
      more := Next(s, more, Vanish(r), r);
    } else if r !in s.w.containers {
      more := Created(s, more, r);
    }
    more := Next(s, more, Reconciler(YES), r);
    more := AimedLost(s, more, r);
  }

  lemma MarkLost(s: State, r: InstanceId) returns (more: seq<Event>)
    requires IdsOk(s) && Cloning(s, r) && Marked(s, r) && Threatens(s, r)
    ensures Throughout(s, more, r) && !Marked(Run(s, more), r)
  {
    match s.rec
    case Listed(_) => more := ListedLost(s, r);
    case Working(_, _, _) => more := AimedLost(s, [], r);
    case Inspected(_, _, _, _, _) => more := InspectedLost(s, r);
  }

  /** In every state a run reaches while a marked replica is being re-cloned, the row stays marked in every
      continuation of the re-clone if and only if the reconciler's pass does not threaten it. */
  lemma MarkHoldsExactly(start: State, events: seq<Event>, r: InstanceId)
    requires Initial(start) && Cloning(Run(start, events), r) && Marked(Run(start, events), r)
    ensures var s := Run(start, events);
            (forall more :: Throughout(s, more, r) ==> Marked(Run(s, more), r)) <==> !Threatens(s, r)
  {
    var s := Run(start, events);
    RunIds(start, events);
    if Threatens(s, r) {
      var more := MarkLost(s, r);
    } else {
      forall more | Throughout(s, more, r) ensures Marked(Run(s, more), r) {
        MarkStays(s, more, r);
      }
    }
  }

  // ---------- a pass that read its rows too early ----------

  /** The pass has read the rows before the mark and the containers after the removal. */
  function Stale(todo: seq<InstanceId>): Pass {
    Working(RISEN.rows, map[1 := 1], todo)
  }

  lemma ListsContainers(ch: Choice)
    requires ch == YES
    ensures Step(State(STRIPPED, Recloning(TRIO_RUN, [2], DropVolume), Listed(RISEN.rows)), Reconciler(ch))
         == State(STRIPPED, Recloning(TRIO_RUN, [2], DropVolume), Stale([0, 1, 2]))
  {
    assert 1 in STRIPPED.containers && forall i :: i in STRIPPED.containers ==> i == 1;
    assert Found(STRIPPED) == map[1 := 1];
  }

  /** Instance 0 is in error and left alone, and 1 cannot be inspected: the pass goes on to 2. */
  lemma SkipsTwo(ch: Choice)
    requires ch == NO
    ensures var s := State(STRIPPED, Recloning(TRIO_RUN, [2], DropVolume), Stale([0, 1, 2]));
            && Step(s, Reconciler(ch)) == s.(rec := Stale([1, 2]))
            && Step(s.(rec := Stale([1, 2])), Reconciler(ch)) == s.(rec := Stale([2]))
  {
    assert [0, 1, 2][1..] == [1, 2] && [1, 2][1..] == [2];
  }

  lemma Clobbers(ch: Choice)
    requires ch == YES
    ensures var s := State(STRIPPED, Recloning(TRIO_RUN, [2], DropVolume), Stale([2]));
            var s' := Step(s, Reconciler(ch));
            s'.pc == s.pc && 2 in s'.w.rows && s'.w.rows[2].status == Errored
  {
  }

  /** Such a state is reached, and the mark lost: the reconciler lists the rows while 2 still says running,
      the controller marks 2 and removes its container, the reconciler lists the containers, and the pass
      turns the row to error in the middle of the re-clone, between `marked` and the end of the run. */
  lemma StalePassClobbers() returns (marked: seq<Event>, events: seq<Event>)
    ensures Initial(START) && Trusted(START, events) && marked <= events
    ensures Cloning(Run(START, marked), 2) && Marked(Run(START, marked), 2)
    ensures var t := Run(START, events); Cloning(t, 2) && 2 in t.w.rows && t.w.rows[2].status == Errored
  {
    events := UpToClone();
    var s := State(RISEN, Recloning(TRIO_RUN, [2], MarkProvisioning), NoPass);
    s, events := Go(START, events, Reconciler(YES), s, true, true);
    MarksTwo(Listed(RISEN.rows), YES);
    RemovesTwo(Listed(RISEN.rows), YES);
    s, events := Go(START, events, Controller(YES), s, true, true);
    s, events := Go(START, events, Controller(YES), s, true, true);
    marked := events;
    MarkedTwo();
    events := StaleTail(marked);
    TrioInitial();
  }

  lemma MarkedTwo()
    ensures 2 in STRIPPED.rows && STRIPPED.rows[2].status == Provisioning
  {
  }

  lemma StaleTail(marked: seq<Event>) returns (events: seq<Event>)
    requires Trusted(START, marked)
    requires Run(START, marked) == State(STRIPPED, Recloning(TRIO_RUN, [2], DropVolume), Listed(RISEN.rows))
    ensures Trusted(START, events) && marked <= events
    ensures var t := Run(START, events); Cloning(t, 2) && 2 in t.w.rows && t.w.rows[2].status == Errored
  {
    ListsContainers(YES);
    SkipsTwo(NO);
    Clobbers(YES);
    var s := State(STRIPPED, Recloning(TRIO_RUN, [2], DropVolume), Listed(RISEN.rows));
    s, events := Go(START, marked, Reconciler(YES), s, true, true);
    s, events := Go(START, events, Reconciler(NO), s, true, true);
    s, events := Go(START, events, Reconciler(NO), s, true, true);
    s, events := Go(START, events, Reconciler(YES), s, true, true);
  }
}
