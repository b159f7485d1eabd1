/** The interval scheduler (internal/scheduler/scheduler.go:70-138): one caller issues Register,
    Start and Stop, and every launched job loops in a goroutine of its own.

    `Step` is total; the finite sequences of events are the interleavings of the caller with the
    goroutines.  A step that is not possible where its party stands changes nothing. */
module Scheduler {
  import opened Optional

  /** A batch is one Start that was not a no-op; its context has the same number. */
  type Batch = nat
  /** A job is its position in the list of registrations. */
  type Job = nat

  /** Where the caller stands inside Start or Stop. */
  datatype Caller =
    | Free
    | Launching(batch: Batch, jobs: nat, next: Job, added: bool)
    | Cancelling(cancel: Option<Batch>)
    | Draining
    | Clearing

  /** Where the goroutine of a launched job stands: its ticker not yet made, waiting in the select,
      inside the job function, or on its way out before the wait group hears of it. */
  datatype Loop = Fresh | Selecting | Running | Leaving

  /** `launched[b]` lists the jobs batch `b` started a goroutine for, in order. */
  datatype State = State(
    jobs: nat, cancel: Option<Batch>, counter: int, done: set<Batch>, batches: nat,
    caller: Caller, loops: map<(Batch, Job), Loop>, launched: map<Batch, seq<Job>>)

  datatype Event =
    | Register
    | Start
    | Stop
    | CallerStep
    | ParentCancelled(b: Batch)
    | Tick(b: Batch, j: Job)
    | Finish(b: Batch, j: Job)
    | Notice(b: Batch, j: Job)
    | Exit(b: Batch, j: Job)

  function Initial(): State {
    State(0, None, 0, {}, 0, Free, map[], map[])
  }

  function Step(s: State, e: Event): State {
    match e
    case Register => if s.caller.Free? then s.(jobs := s.jobs + 1) else s
    case Start => if s.caller.Free? then BeginStart(s) else s
    case Stop => if s.caller.Free? then s.(caller := Cancelling(s.cancel)) else s
    case CallerStep => Advance(s)
    case ParentCancelled(b) => s.(done := s.done + {b})
    case Tick(b, j) => Move(s, b, j, {Fresh, Selecting}, Running)
    case Finish(b, j) => Move(s, b, j, {Running}, Selecting)
    case Notice(b, j) => if b in s.done then Move(s, b, j, {Fresh, Selecting}, Leaving) else s
    case Exit(b, j) =>
      if (b, j) in s.loops && s.loops[(b, j)] == Leaving
      then s.(loops := s.loops - {(b, j)}, counter := s.counter - 1) else s
  }

  /** The guarded part of Start. */
  function BeginStart(s: State): State {
    if s.cancel.Some? then s
    else s.(cancel := Some(s.batches), batches := s.batches + 1, launched := s.launched[s.batches := []],
            caller := Launching(s.batches, s.jobs, 0, false))
  }

  /** The caller's next step inside Start or Stop. */
  function Advance(s: State): State {
    match s.caller
    case Free => s
    case Launching(b, jobs, next, added) =>
      if next >= jobs then s.(caller := Free)
      else if !added then s.(counter := s.counter + 1, caller := Launching(b, jobs, next, true))
      else
        s.(loops := s.loops[(b, next) := Fresh], caller := Launching(b, jobs, next + 1, false),
           launched := s.launched[b := (if b in s.launched then s.launched[b] else []) + [next]])
    case Cancelling(c) => s.(done := if c.Some? then s.done + {c.value} else s.done, caller := Draining)
    case Draining => if s.counter == 0 then s.(caller := Clearing) else s
    case Clearing => s.(cancel := None, caller := Free)
  }

  function Move(s: State, b: Batch, j: Job, from: set<Loop>, to: Loop): State {
    if (b, j) in s.loops && s.loops[(b, j)] in from then s.(loops := s.loops[(b, j) := to]) else s
  }

  function RunAll(events: seq<Event>): State {
    if events == [] then Initial() else Step(RunAll(events[..|events| - 1]), events[|events| - 1])
  }

  // ---------- the invariant ----------

  /** The jobs `0 .. n`, each once. */
  function UpTo(n: nat): seq<Job> {
    seq(n, k requires 0 <= k < n => k)
  }

  /** The wait group counts the live goroutines, all of which belong to the recorded batch, and
      inside Start the jobs before the next one are launched. */
  ghost predicate Inv(s: State) {
    && s.counter == |s.loops| + (if s.caller.Launching? && s.caller.added then 1 else 0)
    && (forall k :: k in s.loops ==> s.cancel == Some(k.0))
    && (s.cancel.Some? ==> s.cancel.value in s.launched && s.cancel.value < s.batches)
    && (forall b :: b in s.launched ==> b < s.batches)
    && (s.caller.Launching? ==>
          && s.cancel == Some(s.caller.batch) && s.caller.jobs == s.jobs && s.caller.next <= s.jobs
          && (s.caller.added ==> s.caller.next < s.jobs)
          && s.launched[s.caller.batch] == UpTo(s.caller.next)
          && (forall k :: k in s.loops ==> k.1 < s.caller.next))
    && (s.caller.Cancelling? ==> s.caller.cancel == s.cancel)
    && (s.caller.Clearing? ==> s.loops == map[])
  }

  lemma MoveKeeps(s: State, b: Batch, j: Job, from: set<Loop>, to: Loop)
    requires Inv(s)
    ensures Inv(Move(s, b, j, from, to))
  {
    if (b, j) in s.loops {
      assert s.loops[(b, j) := to].Keys == s.loops.Keys;
    }
  }

  lemma ExitKeeps(s: State, b: Batch, j: Job)
    requires Inv(s)
    ensures Inv(Step(s, Exit(b, j)))
  {
    if (b, j) in s.loops {
      assert (s.loops - {(b, j)}).Keys == s.loops.Keys - {(b, j)};
    }
  }

  lemma AdvanceKeeps(s: State)
    requires Inv(s)
    ensures Inv(Advance(s))
  {
    if s.caller.Launching? {
      LaunchKeeps(s);
    }
  }

  lemma LaunchKeeps(s: State)
    requires Inv(s) && s.caller.Launching?
    ensures Inv(Advance(s))
  {
    var b, next := s.caller.batch, s.caller.next;
    if next < s.caller.jobs && s.caller.added {
      assert (b, next) !in s.loops;
      assert s.loops[(b, next) := Fresh].Keys == s.loops.Keys + {(b, next)};
      assert UpTo(next) + [next] == UpTo(next + 1);
    }
  }

  lemma StepKeeps(s: State, e: Event)
    requires Inv(s)
    ensures Inv(Step(s, e))
  {
    match e
    case CallerStep => AdvanceKeeps(s);
    case Tick(b, j) => MoveKeeps(s, b, j, {Fresh, Selecting}, Running);
    case Finish(b, j) => MoveKeeps(s, b, j, {Running}, Selecting);
    case Notice(b, j) => MoveKeeps(s, b, j, {Fresh, Selecting}, Leaving);
    case Exit(b, j) => ExitKeeps(s, b, j);
    case _ =>
  }

  lemma {:induction false} RunKeeps(events: seq<Event>)
    ensures Inv(RunAll(events))
  {
    if events != [] {
      RunKeeps(events[..|events| - 1]);
      StepKeeps(RunAll(events[..|events| - 1]), events[|events| - 1]);
    }
  }

  // ---------- the theorems ----------

  /** Single flight: under every interleaving a job has at most one live goroutine, so it never
      overlaps itself. */
  lemma SingleFlight(events: seq<Event>, b: Batch, c: Batch, j: Job)
    requires (b, j) in RunAll(events).loops && (c, j) in RunAll(events).loops
    ensures b == c
  {
    RunKeeps(events);
  }

  /** Once Stop has returned, and until the next Start, no job runs and none can begin to. */
  lemma StoppedMeansQuiet(events: seq<Event>)
    requires RunAll(events).cancel.None?
    ensures RunAll(events).loops == map[] && RunAll(events).counter == 0
  {
    RunKeeps(events);
    var s := RunAll(events);
    assert forall k :: k !in s.loops;
    assert s.loops.Keys == {};
  }

  /** When Stop returns, no batch is recorded and no goroutine is alive. */
  lemma StopReturns(events: seq<Event>)
    requires RunAll(events).caller.Clearing?
    ensures var s := Step(RunAll(events), CallerStep);
            s.caller.Free? && s.cancel.None? && s.loops == map[]
  {
    RunKeeps(events);
  }

  /** A Start that returns has launched every registered job exactly once, in registration order;
      after a Stop that includes a relaunch of all of them in a new batch. */
  lemma StartLaunchesAll(events: seq<Event>)
    requires RunAll(events).caller.Launching?
    ensures var s := RunAll(events);
            && s.caller.batch in s.launched && s.launched[s.caller.batch] == UpTo(s.caller.next)
            && (Step(s, CallerStep).caller.Free? ==> s.launched[s.caller.batch] == UpTo(s.jobs))
  {
    RunKeeps(events);
  }

  lemma RelaunchIsNew(events: seq<Event>)
    requires RunAll(events).caller.Free? && RunAll(events).cancel.None?
    ensures var s := RunAll(events); var s' := Step(s, Start);
            s'.caller == Launching(s.batches, s.jobs, 0, false) && s.batches !in s.launched
  {
    RunKeeps(events);
  }

  lemma {:induction false} DrainingIsCancelled(events: seq<Event>)
    ensures var s := RunAll(events); s.caller.Draining? && s.cancel.Some? ==> s.cancel.value in s.done
  {
    if events != [] {
      DrainingIsCancelled(events[..|events| - 1]);
      RunKeeps(events[..|events| - 1]);
      DrainingStep(RunAll(events[..|events| - 1]), events[|events| - 1]);
    }
  }

  lemma DrainingStep(s: State, e: Event)
    requires Inv(s) && (s.caller.Draining? && s.cancel.Some? ==> s.cancel.value in s.done)
    ensures var s' := Step(s, e); s'.caller.Draining? && s'.cancel.Some? ==> s'.cancel.value in s'.done
  {
  }

  lemma Snoc(events: seq<Event>, e: Event)
    ensures RunAll(events + [e]) == Step(RunAll(events), e)
  {
    assert (events + [e])[..|events|] == events;
  }

  /** The next step of a goroutine towards its end, once its context is cancelled. */
  function Outward(loop: Loop, b: Batch, j: Job): Event {
    match loop
    case Running => Finish(b, j)
    case Leaving => Exit(b, j)
    case _ => Notice(b, j)
  }

  /** How many such steps it is from leaving. */
  function Distance(loop: Loop): nat {
    match loop
    case Running => 3
    case Leaving => 1
    case _ => 2
  }

  lemma OutwardStep(s: State, b: Batch, j: Job)
    requires (b, j) in s.loops && b in s.done
    ensures var loop := s.loops[(b, j)]; var s' := Step(s, Outward(loop, b, j));
            if loop == Leaving then s' == s.(loops := s.loops - {(b, j)}, counter := s.counter - 1)
            else && (b, j) in s'.loops && s' == s.(loops := s.loops[(b, j) := s'.loops[(b, j)]])
                 && Distance(s'.loops[(b, j)]) < Distance(loop)
  {
  }

  lemma UpdateThenDrop(loops: map<(Batch, Job), Loop>, k: (Batch, Job), loop: Loop)
    ensures loops[k := loop] - {k} == loops - {k}
  {
  }

  /** Any goroutine of a cancelled batch can be out in at most three steps: its job returns, it notices the
      cancellation, it leaves. */
  lemma {:induction false} LeavesSoon(events: seq<Event>, b: Batch, j: Job) returns (more: seq<Event>)
    requires b in RunAll(events).done && (b, j) in RunAll(events).loops
    ensures events <= more && |more| <= |events| + Distance(RunAll(events).loops[(b, j)])
    ensures RunAll(more) == RunAll(events).(loops := RunAll(events).loops - {(b, j)},
            counter := RunAll(events).counter - 1)
    decreases Distance(RunAll(events).loops[(b, j)])
  {
    var s := RunAll(events);
    var loop := s.loops[(b, j)];
    OutwardStep(s, b, j);
    Snoc(events, Outward(loop, b, j));
    more := events + [Outward(loop, b, j)];
    if loop != Leaving {
      UpdateThenDrop(s.loops, (b, j), RunAll(more).loops[(b, j)]);
      more := LeavesSoon(more, b, j);
    }
  }

  /** Stop cannot wedge: from every state in which it waits, the goroutines that are left can leave, one
      fewer each time, and Stop returns with none alive. */
  lemma {:induction false} StopCanReturn(events: seq<Event>) returns (more: seq<Event>)
    requires RunAll(events).caller.Draining?
    ensures events <= more && |more| <= |events| + 3 * |RunAll(events).loops.Keys| + 2
    ensures RunAll(more).caller.Free? && RunAll(more).cancel.None? && RunAll(more).loops == map[]
    decreases |RunAll(events).loops.Keys|
  {
    var s := RunAll(events);
    RunKeeps(events);
    if s.loops == map[] {
      Snoc(events, CallerStep);
      Snoc(events + [CallerStep], CallerStep);
      more := events + [CallerStep] + [CallerStep];
    } else {
      var k := SomeKey(s.loops);
      DrainingIsCancelled(events);
      var mid := LeavesSoon(events, k.0, k.1);
      assert RunAll(mid).loops.Keys == s.loops.Keys - {k};
      more := StopCanReturn(mid);
    }
  }

  lemma SomeKey(loops: map<(Batch, Job), Loop>) returns (k: (Batch, Job))
    requires loops != map[]
    ensures k in loops
  {
    assert exists x :: x in loops by {
      assert loops.Keys != {};
    }
    k :| k in loops;
  }

  // ---------- what is launched keeps running ----------

  /** A goroutine is on its way out only if its batch was cancelled, and until then every launched job has
      one. */
  ghost predicate Wanted(s: State) {
    && (forall k :: k in s.loops && s.loops[k] == Leaving ==> k.0 in s.done)
    && (forall b, n :: b in s.launched && b !in s.done && 0 <= n < |s.launched[b]| ==> (b, s.launched[b][n]) in s.loops)
  }

  lemma WantedStep(s: State, e: Event)
    requires Wanted(s)
    ensures Wanted(Step(s, e))
  {
  }

  /** A launched job is not given up before its batch is cancelled, by Stop or by the parent context. */
  lemma {:induction false} RunsUntilCancelled(events: seq<Event>)
    ensures Wanted(RunAll(events))
  {
    if events != [] {
      RunsUntilCancelled(events[..|events| - 1]);
      WantedStep(RunAll(events[..|events| - 1]), events[|events| - 1]);
    }
  }

  /** How often the job has run to its end in this batch. */
  function Runs(events: seq<Event>, b: Batch, j: Job): nat {
    if events == [] then 0
    else
      var front := events[..|events| - 1];
      var before, after := RunAll(front).loops, RunAll(events).loops;
      Runs(front, b, j) + (if (b, j) in before && before[(b, j)] == Running && (b, j) in after
                              && after[(b, j)] == Selecting then 1 else 0)
  }

  /** One more run of a job that waits for its tick. */
  lemma RunsOnce(events: seq<Event>, b: Batch, j: Job) returns (more: seq<Event>)
    requires (b, j) in RunAll(events).loops
    requires var loop := RunAll(events).loops[(b, j)]; loop == Fresh || loop == Selecting
    ensures events <= more && |more| == |events| + 2 && Runs(more, b, j) == Runs(events, b, j) + 1
    ensures (b, j) in RunAll(more).loops && RunAll(more).loops[(b, j)] == Selecting
    ensures RunAll(more).done == RunAll(events).done
  {
    var mid := events + [Tick(b, j)];
    more := mid + [Finish(b, j)];
    Snoc(events, Tick(b, j));
    Snoc(mid, Finish(b, j));
    assert mid[..|events|] == events && more[..|mid|] == mid;
  }

  /** A launched job whose batch is not cancelled can run again and again, any number of times. */
  lemma {:induction false} RunsAgain(events: seq<Event>, b: Batch, j: Job, n: nat) returns (more: seq<Event>)
    requires b in RunAll(events).launched && j in RunAll(events).launched[b] && b !in RunAll(events).done
    ensures events <= more && Runs(more, b, j) >= Runs(events, b, j) + n
    ensures (b, j) in RunAll(more).loops && RunAll(more).done == RunAll(events).done
  {
    RunsUntilCancelled(events);
    var s := RunAll(events);
    var k :| 0 <= k < |s.launched[b]| && s.launched[b][k] == j;
    assert (b, s.launched[b][k]) in s.loops;
    more := events;
    if s.loops[(b, j)] == Running {
      more := events + [Finish(b, j)];
      Snoc(events, Finish(b, j));
      assert more[..|events|] == events;
    }
    more := RunsTimes(more, b, j, n);
  }

  lemma {:induction false} RunsTimes(events: seq<Event>, b: Batch, j: Job, n: nat) returns (more: seq<Event>)
    requires (b, j) in RunAll(events).loops
    requires var loop := RunAll(events).loops[(b, j)]; loop == Fresh || loop == Selecting
    ensures events <= more && Runs(more, b, j) == Runs(events, b, j) + n
    ensures (b, j) in RunAll(more).loops && RunAll(more).done == RunAll(events).done
    decreases n
  {
    more := events;
    if n > 0 {
      more := RunsOnce(events, b, j);
      more := RunsTimes(more, b, j, n - 1);
    }
  }

  /** Steps the caller still takes inside Start. */
  function Due(s: State): nat {
    if !s.caller.Launching? || s.caller.next >= s.caller.jobs then 1
    else 2 * (s.caller.jobs - s.caller.next) + (if s.caller.added then 0 else 1)
  }

  /** The caller inside Start: it returns when every job is launched, or gets on with launching the next. */
  lemma LaunchStep(s: State)
    requires Inv(s) && s.caller.Launching?
    ensures var s' := Step(s, CallerStep); var b := s.caller.batch;
            && s'.jobs == s.jobs && s'.cancel == Some(b) && (forall k :: k in s.loops ==> k in s'.loops)
            && (s.caller.next >= s.jobs ==> s'.caller.Free? && s'.launched == s.launched)
            && (s.caller.next < s.jobs ==>
                  && s'.caller.Launching? && s'.caller.batch == b && Due(s') < Due(s)
                  && s.caller.next <= s'.caller.next <= s.caller.next + 1
                  && (s'.caller.next > s.caller.next ==> (b, s.caller.next) in s'.loops))
  {
  }

  /** Start cannot hang: from inside it the caller's own steps bring it to its return, with every registered
      job launched and, of those it still had to launch, a goroutine alive for each. */
  lemma {:induction false} StartCanReturn(events: seq<Event>) returns (more: seq<Event>)
    requires RunAll(events).caller.Launching?
    ensures var s := RunAll(events); var r := RunAll(more);
            && events <= more && |more| <= |events| + Due(s)
            && r.caller.Free? && r.cancel == Some(s.caller.batch) && r.jobs == s.jobs
            && s.caller.batch in r.launched && r.launched[s.caller.batch] == UpTo(s.jobs)
            && (forall k :: k in s.loops ==> k in r.loops)
            && (forall j :: s.caller.next <= j < s.jobs ==> (s.caller.batch, j) in r.loops)
    decreases Due(RunAll(events))
  {
    RunKeeps(events);
    LaunchStep(RunAll(events));
    more := events + [CallerStep];
    Snoc(events, CallerStep);
    if RunAll(more).caller.Launching? {
      more := StartCanReturn(more);
    }
  }

  /** A job is registered exactly while the caller is not inside Start or Stop, a second Start while a batch
      is recorded changes nothing, and a parent context that is cancelled cancels its batch. */
  lemma FreeCaller(events: seq<Event>, b: Batch)
    ensures var s := RunAll(events);
            && Step(s, ParentCancelled(b)) == s.(done := s.done + {b})
            && (s.caller.Free? ==> Step(s, Register) == s.(jobs := s.jobs + 1))
            && (s.caller.Free? && s.cancel.Some? ==> Step(s, Start) == s)
            && (s.caller.Free? ==> Step(s, Stop).caller == Cancelling(s.cancel))
  {
  }

  /** Stop cancels the recorded batch and then waits for its goroutines. */
  lemma StopCancels(events: seq<Event>)
    requires RunAll(events).caller.Cancelling?
    ensures var s := RunAll(events); var s' := Step(s, CallerStep);
            && s'.caller.Draining? && (s.cancel.Some? ==> s.cancel.value in s'.done)
            && (Step(s', CallerStep).caller.Clearing? <==> s.loops == map[])
  {
    RunKeeps(events);
  }
}
