/** Tracked background work and its drain at shutdown (internal/api/async.go:29-70).

    Go and Wait are called from any number of goroutines; their critical sections are atomic steps,
    everything else interleaves. */
module Async {
  type Task = nat
  type Waiter = nat

  /** A task between Go and the end of its goroutine: accepted under the lock, its function running,
      or its function over (by return or panic) with the counter still to be decremented. */
  datatype Phase = Accepted | Started | Ended

  /** A Wait past its critical section: blocked, or returned, drained or timed out. */
  datatype Wait = Blocked | Drained | TimedOut

  /** `seen` are the calls of Go so far, `dropped` and `accepted` how each was answered, `finished`
      the accepted ones whose goroutine is done, and `runs` counts how often each function ran. */
  datatype State = State(
    closed: bool, counter: int, live: map<Task, Phase>,
    seen: set<Task>, dropped: set<Task>, accepted: set<Task>, finished: set<Task>, runs: map<Task, nat>,
    waits: map<Waiter, Wait>)

  datatype Event =
    | Go(t: Task)
    | Begin(t: Task)
    | End(t: Task, panics: bool)
    | Done(t: Task)
    | CallWait(w: Waiter)
    | Observe(w: Waiter)
    | GiveUp(w: Waiter)

  function Initial(): State {
    State(false, 0, map[], {}, {}, {}, {}, map[], map[])
  }

  function At(s: State, t: Task, p: Phase): bool {
    t in s.live && s.live[t] == p
  }

  function Step(s: State, e: Event): State {
    match e
    case Go(t) =>
      if t in s.seen then s
      else if s.closed then s.(seen := s.seen + {t}, dropped := s.dropped + {t})
      else s.(seen := s.seen + {t}, accepted := s.accepted + {t}, counter := s.counter + 1,
              live := s.live[t := Accepted])
    case Begin(t) =>
      if At(s, t, Accepted)
      then s.(live := s.live[t := Started], runs := s.runs[t := (if t in s.runs then s.runs[t] else 0) + 1]) else s
    // A panic is recovered, so it ends the function like a return does.
    case End(t, panics) => if At(s, t, Started) then s.(live := s.live[t := Ended]) else s
    case Done(t) =>
      if At(s, t, Ended)
      then s.(live := s.live - {t}, finished := s.finished + {t}, counter := s.counter - 1) else s
    case CallWait(w) => if w in s.waits then s else s.(closed := true, waits := s.waits[w := Blocked])
    case Observe(w) =>
      if w in s.waits && s.waits[w] == Blocked && s.counter == 0 then s.(waits := s.waits[w := Drained]) else s
    case GiveUp(w) =>
      if w in s.waits && s.waits[w] == Blocked then s.(waits := s.waits[w := TimedOut]) else s
  }

  function Run(s: State, events: seq<Event>): State {
    if events == [] then s else Step(Run(s, events[..|events| - 1]), events[|events| - 1])
  }

  // ---------- the invariant ----------

  /** The accepted tasks are the live and the finished ones, and the counter counts the live ones. */
  ghost predicate Counted(s: State) {
    && s.counter == |s.live.Keys|
    && (forall t :: t in s.accepted <==> t in s.live || t in s.finished)
    && (forall t :: t in s.live ==> t !in s.finished)
  }

  ghost predicate Answered(s: State) {
    && (forall t :: t in s.seen <==> t in s.accepted || t in s.dropped)
    && (forall t :: t in s.accepted ==> t !in s.dropped)
  }

  ghost predicate RanOnce(s: State) {
    && (forall t :: t in s.runs ==> t in s.accepted && s.runs[t] == 1)
    && (forall t :: t in s.live ==> (t in s.runs <==> s.live[t] != Accepted))
    && (forall t :: t in s.finished ==> t in s.runs)
  }

  ghost predicate Waited(s: State) {
    && (s.waits != map[] ==> s.closed)
    && (forall w :: w in s.waits && s.waits[w] == Drained ==> s.live == map[])
  }

  ghost predicate Inv(s: State) {
    Counted(s) && Answered(s) && RanOnce(s) && Waited(s)
  }

  lemma OneMoreKey(live: map<Task, Phase>, t: Task, p: Phase)
    requires t !in live
    ensures |live[t := p].Keys| == |live.Keys| + 1
  {
    assert live[t := p].Keys == live.Keys + {t};
  }

  lemma OneKeyLess(live: map<Task, Phase>, t: Task)
    requires t in live
    ensures |(live - {t}).Keys| == |live.Keys| - 1
  {
    assert (live - {t}).Keys == live.Keys - {t};
  }

  lemma CountedAfterGo(s: State, t: Task)
    requires Counted(s) && Answered(s)
    ensures Counted(Step(s, Go(t)))
  {
    if t !in s.seen && !s.closed {
      assert t !in s.accepted;
      OneMoreKey(s.live, t, Accepted);
    }
  }

  lemma CountedAfterDone(s: State, t: Task)
    requires Counted(s)
    ensures Counted(Step(s, Done(t)))
  {
    if At(s, t, Ended) {
      OneKeyLess(s.live, t);
    }
  }

  lemma CountedStays(s: State, e: Event)
    requires Counted(s) && Answered(s)
    ensures Counted(Step(s, e))
  {
    match e
    case Go(t) => CountedAfterGo(s, t);
    case Done(t) => CountedAfterDone(s, t);
    case _ => assert Step(s, e).live.Keys == s.live.Keys;
  }

  lemma AnsweredStays(s: State, e: Event)
    requires Answered(s)
    ensures Answered(Step(s, e))
  {
  }

  lemma RanOnceStays(s: State, e: Event)
    requires Counted(s) && Answered(s) && RanOnce(s)
    ensures RanOnce(Step(s, e))
  {
    var s' := Step(s, e);
    match e
    case Go(t) => if s'.live != s.live { assert t !in s.accepted; }
    case Begin(t) => if At(s, t, Accepted) { assert t in s.accepted && t !in s.runs; }
    case _ =>
  }

  lemma WaitedStays(s: State, e: Event)
    requires Counted(s) && Waited(s)
    ensures Waited(Step(s, e))
  {
    var s' := Step(s, e);
    if e.Observe? && s.counter == 0 {
      assert s.live == map[];
    }
    if e.CallWait? && s'.waits != s.waits {
      assert forall w :: w in s'.waits && s'.waits[w] == Drained ==> w in s.waits && s.waits[w] == Drained;
    }
  }

  lemma StepKeeps(s: State, e: Event)
    requires Inv(s)
    ensures Inv(Step(s, e))
  {
    CountedStays(s, e);
    AnsweredStays(s, e);
    RanOnceStays(s, e);
    WaitedStays(s, e);
  }

  lemma {:induction false} RunKeeps(s: State, events: seq<Event>)
    requires Inv(s)
    ensures Inv(Run(s, events))
  {
    if events != [] {
      RunKeeps(s, events[..|events| - 1]);
      StepKeeps(Run(s, events[..|events| - 1]), events[|events| - 1]);
    }
  }

  // ---------- the theorems ----------

  /** The wait-group counter is the number of accepted tasks that have not finished. */
  lemma CounterIsOutstanding(events: seq<Event>)
    ensures var s := Run(Initial(), events);
            s.finished <= s.accepted && s.counter == |s.accepted| - |s.finished|
  {
    RunKeeps(Initial(), events);
    var s := Run(Initial(), events);
    assert s.accepted == s.live.Keys + s.finished && s.live.Keys !! s.finished;
  }

  /** Each Go is either dropped, and then never runs, or accepted, and then runs at most once, and
      exactly once by the time its goroutine is done. */
  lemma RunsExactlyOnce(events: seq<Event>, t: Task)
    requires t in Run(Initial(), events).seen
    ensures var s := Run(Initial(), events);
            && (t in s.dropped <==> t !in s.accepted)
            && (t in s.dropped ==> t !in s.runs)
            && (t in s.runs ==> s.runs[t] == 1)
            && (t in s.finished ==> t in s.runs)
            && (t in s.accepted ==> t in s.finished || t in s.live)
  {
    RunKeeps(Initial(), events);
  }

  /** Once some Wait has closed the tracker, whatever follows, nothing more is accepted and the
      counter never rises. */
  lemma {:induction false} ClosedOnlyDrains(s: State, later: seq<Event>)
    requires s.closed
    ensures var s' := Run(s, later);
            s'.closed && s'.accepted == s.accepted && s'.counter <= s.counter && s.finished <= s'.finished
  {
    if later != [] {
      ClosedOnlyDrains(s, later[..|later| - 1]);
    }
  }

  /** A Wait that returned without timing out means that every accepted task has finished, then and
      ever after. */
  lemma DrainedMeansFinished(events: seq<Event>, later: seq<Event>, w: Waiter)
    requires w in Run(Initial(), events).waits && Run(Initial(), events).waits[w] == Drained
    ensures var s := Run(Run(Initial(), events), later);
            s.finished == s.accepted == Run(Initial(), events).accepted && s.counter == 0
  {
    var s := Run(Initial(), events);
    RunKeeps(Initial(), events);
    assert s.live == map[];
    ClosedOnlyDrains(s, later);
    RunKeeps(s, later);
  }

  // ---------- progress ----------

  /** The tracker is closed from the first Wait on. */
  lemma {:induction false} ClosedByWait(events: seq<Event>)
    ensures Run(Initial(), events).closed <==> Run(Initial(), events).waits != map[]
  {
    if events != [] {
      ClosedByWait(events[..|events| - 1]);
    }
  }

  /** Work that is handed in is accepted exactly while nobody has called Wait, and dropped from then on. */
  lemma AcceptedWhileOpen(events: seq<Event>, t: Task)
    requires t !in Run(Initial(), events).seen
    ensures var s := Run(Initial(), events); var s' := Step(s, Go(t));
            && (t in s'.accepted <==> s.waits == map[]) && (t in s'.dropped <==> s.waits != map[])
            && (t in s'.accepted ==> t in s'.live && t !in s'.runs && s'.counter == s.counter + 1)
  {
    ClosedByWait(events);
    RunKeeps(Initial(), events);
  }

  lemma Snoc(events: seq<Event>, e: Event)
    ensures Run(Initial(), events + [e]) == Step(Run(Initial(), events), e)
  {
    assert (events + [e])[..|events|] == events;
  }

  /** The next step of a task, whose function may end by a panic. */
  function Onward(p: Phase, t: Task, panics: bool): Event {
    match p
    case Accepted => Begin(t)
    case Started => End(t, panics)
    case Ended => Done(t)
  }

  function Distance(p: Phase): nat {
    match p
    case Accepted => 3
    case Started => 2
    case Ended => 1
  }

  /** An accepted task is finished, by return or by panic, after at most three steps of its own, and leaves the
      others alone. */
  lemma {:induction false} FinishesSoon(events: seq<Event>, t: Task, panics: bool) returns (more: seq<Event>)
    requires t in Run(Initial(), events).live
    ensures var s := Run(Initial(), events); var r := Run(Initial(), more);
            && events <= more && |more| <= |events| + Distance(s.live[t])
            && t in r.finished && r.live == s.live - {t} && r.counter == s.counter - 1
            && r.closed == s.closed && r.waits == s.waits
    decreases Distance(Run(Initial(), events).live[t])
  {
    var s := Run(Initial(), events);
    var e := Onward(s.live[t], t, panics);
    Snoc(events, e);
    more := events + [e];
    if s.live[t] != Ended {
      var p := Run(Initial(), more).live[t];
      assert s.live[t := p] - {t} == s.live - {t};
      more := FinishesSoon(more, t, panics);
    }
  }

  /** A blocked Wait can drain: when the tasks that are left have finished, and not before, it returns. */
  lemma {:induction false} WaitCanDrain(events: seq<Event>, w: Waiter) returns (more: seq<Event>)
    requires w in Run(Initial(), events).waits && Run(Initial(), events).waits[w] == Blocked
    ensures var s := Run(Initial(), events); var r := Run(Initial(), more);
            && events <= more && |more| <= |events| + 3 * |s.live.Keys| + 1
            && w in r.waits && r.waits[w] == Drained && r.live == map[]
    decreases |Run(Initial(), events).live.Keys|
  {
    var s := Run(Initial(), events);
    RunKeeps(Initial(), events);
    if s.live == map[] {
      Snoc(events, Observe(w));
      more := events + [Observe(w)];
    } else {
      var t := SomeTask(s.live);
      var mid := FinishesSoon(events, t, false);
      OneKeyLess(s.live, t);
      more := WaitCanDrain(mid, w);
    }
  }

  lemma SomeTask(live: map<Task, Phase>) returns (t: Task)
    requires live != map[]
    ensures t in live
  {
    assert exists x :: x in live by {
      assert live.Keys != {};
    }
    t :| t in live;
  }

  /** A Wait blocks first, then returns: drained exactly when the counter is at zero, or timed out at any
      moment. */
  lemma WaitReturns(events: seq<Event>, w: Waiter)
    ensures var s := Run(Initial(), events);
            && (w !in s.waits ==> var s' := Step(s, CallWait(w)); s'.closed && s'.waits == s.waits[w := Blocked])
            && (w in s.waits && s.waits[w] == Blocked ==>
                  && Step(s, GiveUp(w)).waits == s.waits[w := TimedOut]
                  && (w in Step(s, Observe(w)).waits)
                  && (Step(s, Observe(w)).waits[w] == Drained <==> s.accepted == s.finished))
  {
    RunKeeps(Initial(), events);
    WaitMoves(Run(Initial(), events), w);
  }

  lemma WaitMoves(s: State, w: Waiter)
    requires Inv(s)
    ensures w !in s.waits ==> Step(s, CallWait(w)).closed && Step(s, CallWait(w)).waits == s.waits[w := Blocked]
    ensures w in s.waits && s.waits[w] == Blocked ==>
              && Step(s, GiveUp(w)).waits == s.waits[w := TimedOut] && w in Step(s, Observe(w)).waits
              && (Step(s, Observe(w)).waits[w] == Drained <==> s.accepted == s.finished)
  {
    AllFinished(s);
    if w in s.waits && s.waits[w] == Blocked {
      Observes(s, w);
    }
  }

  lemma Observes(s: State, w: Waiter)
    requires w in s.waits && s.waits[w] == Blocked
    ensures var s' := Step(s, Observe(w)); w in s'.waits && (s'.waits[w] == Drained <==> s.counter == 0)
  {
  }

  lemma AllFinished(s: State)
    requires Inv(s)
    ensures s.counter == 0 <==> s.accepted == s.finished
  {
    if s.accepted == s.finished {
      assert s.live.Keys == {};
    } else {
      var t :| t in s.accepted && t !in s.finished;
      assert t in s.live.Keys;
    }
  }

  lemma {:induction false} ReturnedForGood(s: State, later: seq<Event>, w: Waiter)
    requires w in s.waits && s.waits[w] != Blocked
    ensures w in Run(s, later).waits && Run(s, later).waits[w] == s.waits[w]
  {
    if later != [] {
      ReturnedForGood(s, later[..|later| - 1], w);
    }
  }
}
