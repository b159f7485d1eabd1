/** Every assumption of the safety theorem is needed: dropping the one about stops, or any of the three
    writes of the promotion window, admits a run from a provisioned cluster that ends with two writable
    primaries.  And each of the three conditions under which a failover that reports Running falls
    short of full agreement is met by a trusted run. */
module FailoverLimits {
  import opened Optional
  import opened Fleet
  import opened Quorum
  import opened RouterPool
  import opened FailoverProtocol
  import opened FailoverScenarios

  // ---------- a second failover on rows that do not name the writer ----------

  /** There is nothing to fence, and 2 is promoted next to 1. */
  lemma PromotesAgain(before: seq<Event>, w: World, stops: bool, writes: bool) returns (events: seq<Event>)
    requires Holding(START, before, stops, writes) && Run(START, before) == State(w, Idle, NoPass)
    requires w.rows.Keys == {0, 1, 2} && w.rows[0].role == Primary && w.rows[1].role == w.rows[2].role == Replica
    requires w.rows[0].cid == None && w.rows[1].cid == Some(1) && w.rows[2].cid == Some(2)
    requires w == FALLEN.(rows := w.rows)
    ensures Holding(START, events, stops, writes) && !SingleWriter(Run(START, events).w)
  {
    var job := Job(w.rows, Some(0), [1, 2]);
    events := UpToFence(START, before, w, BETTER, 2, stops, writes);
    var s := State(w, Fencing(job, 2), NoPass);
    FencesNobody(w, job, YES);
    s, events := Go(START, events, Controller(YES), s, stops, writes);
    PromotesSecond(w, job, YES);
    s, events := Go(START, events, Controller(YES), s, stops, writes);
  }

  lemma FencesNobody(w: World, job: Job, ch: Choice)
    requires ch == YES && job.oldP == Some(0) && 0 in job.rows && job.rows[0].cid == None
    ensures Step(State(w, Fencing(job, 2), NoPass), Controller(ch)) == State(w, Promote(job, 2), NoPass)
  {
  }

  lemma PromotesSecond(w: World, job: Job, ch: Choice)
    requires ch == YES && w == FALLEN.(rows := w.rows) && 2 in job.rows && job.rows[2].cid == Some(2)
    ensures !SingleWriter(Step(State(w, Promote(job, 2), NoPass), Controller(ch)).w)
  {
    var w' := Step(State(w, Promote(job, 2), NoPass), Controller(ch)).w;
    assert Writer(w', 1) && Writer(w', 2);
  }

  /** If the control plane may stop inside the window, split brain is reachable although every
      meta-database write of the window succeeds. */
  lemma StopInsideWindowSplitsBrain() returns (events: seq<Event>)
    ensures Initial(START) && Holding(START, events, false, true) && !SingleWriter(Run(START, events).w)
  {
    var s;
    events := UpToPromotion(YES, false, true);
    s, events := Go(START, events, ControlPlaneStop, State(FALLEN, Demote(TRIO_JOB, 1, true), NoPass), false, true);
    events := PromotesAgain(events, FALLEN, false, true);
    TrioInitial();
  }

  /** The write that records a failed promotion is lost, although pg_promote had worked. */
  lemma LostErrorSplitsBrain() returns (events: seq<Event>)
    ensures Initial(START) && Holding(START, events, true, false) && !SingleWriter(Run(START, events).w)
  {
    var s;
    events := UpToPromotion(BROKEN, true, false);
    s, events := Go(START, events, Controller(UNSAVED), State(FALLEN, PromoteFailed(TRIO_JOB, 1), NoPass), true, false);
    events := PromotesAgain(events, FALLEN, true, false);
    TrioInitial();
  }

  const NOT_DEMOTED := FALLEN.(rows := FALLEN.rows[0 := Row(Primary, None, Errored)])

  lemma LosesDemotion(ch: Choice)
    requires ch == UNSAVED
    ensures Step(State(FALLEN, Demote(TRIO_JOB, 1, true), NoPass), Controller(ch))
         == State(NOT_DEMOTED, Crown(TRIO_JOB, 1, true), NoPass)
  {
  }

  lemma CannotCrown(ch: Choice)
    requires ch == YES
    ensures var s := Step(State(NOT_DEMOTED, Crown(TRIO_JOB, 1, true), NoPass), Controller(ch));
            s.w == NOT_DEMOTED && s.pc.SavePrimary? && s.rec == NoPass
  {
    assert 0 in NOT_DEMOTED.rows && NOT_DEMOTED.rows[0].role == Primary;
    assert SetRole(NOT_DEMOTED, 1, Primary, true) == NOT_DEMOTED;
    assert NOT_DEMOTED.rows[1 := Row(Replica, Some(1), Running)] == NOT_DEMOTED.rows;
  }

  lemma UpToNotDemoted() returns (events: seq<Event>)
    ensures Holding(START, events, true, false) && Run(START, events) == State(NOT_DEMOTED, Idle, NoPass)
  {
    events := UpToPromotion(YES, true, false);
    LosesDemotion(UNSAVED);
    CannotCrown(YES);
    var s := State(FALLEN, Demote(TRIO_JOB, 1, true), NoPass);
    s, events := Go(START, events, Controller(UNSAVED), s, true, false);
    s, events := Go(START, events, Controller(YES), s, true, false);
    StopsThere(s);
    s, events := Go(START, events, ControlPlaneStop, s, true, false);
  }

  lemma StopsThere(s: State)
    requires s.w == NOT_DEMOTED && s.rec == NoPass
    ensures Step(s, ControlPlaneStop) == State(NOT_DEMOTED, Idle, NoPass)
  {
  }

  /** The demotion's write is lost, so the unique index blocks the new primary's role. */
  lemma LostDemotionSplitsBrain() returns (events: seq<Event>)
    ensures Initial(START) && Holding(START, events, true, false) && !SingleWriter(Run(START, events).w)
  {
    events := UpToNotDemoted();
    events := PromotesAgain(events, NOT_DEMOTED, true, false);
    TrioInitial();
  }

  // ---------- the lost role of the new primary, with four nodes ----------

  const FOUR := [0, 1, 2, 3]
  const UP_THREE := map[1 := Container(1, true), 2 := Container(2, true), 3 := Container(3, true)]
  const REPLICA_ROWS := map[
    1 := Row(Replica, Some(1), Running), 2 := Row(Replica, Some(2), Running), 3 := Row(Replica, Some(3), Running)]

  /** Primary 0 with replicas 1, 2 and 3. */
  const QUAD := World(
    FOUR, REPLICA_ROWS[0 := Row(Primary, Some(0), Running)],
    map[0 := Writable, 1 := Standby, 2 := Standby, 3 := Standby],
    FOUR, UP_THREE[0 := Container(0, true)],
    ClusterRunning, Some(0), Some(Router(0, [1, 2, 3], false)))

  const QUAD_START := State(QUAD, Idle, NoPass)

  lemma ReplicasSnoc(rows: map<InstanceId, Row>, order: seq<InstanceId>, i: InstanceId)
    requires i in rows
    ensures ReplicasOf(rows, order + [i]) == ReplicasOf(rows, order) + (if rows[i].role == Replica then [i] else [])
    ensures PrimaryOf(rows, order + [i]) == if rows[i].role == Primary then Some(i) else PrimaryOf(rows, order)
  {
    assert (order + [i])[..|order|] == order;
  }

  /** Splitting four members of which at most the first is primary. */
  lemma FourSplit(rows: map<InstanceId, Row>)
    requires rows.Keys == {0, 1, 2, 3} && rows[1].role == rows[2].role == rows[3].role == Replica
    ensures ReplicasOf(rows, FOUR) == if rows[0].role == Replica then FOUR else [1, 2, 3]
    ensures PrimaryOf(rows, FOUR) == if rows[0].role == Primary then Some(0) else None
  {
    ReplicasSnoc(rows, [], 0);
    ReplicasSnoc(rows, [0], 1);
    ReplicasSnoc(rows, [0, 1], 2);
    ReplicasSnoc(rows, [0, 1, 2], 3);
    FourGrows();
  }

  lemma FourGrows()
    ensures [] + [0] == [0] && [0] + [1] == [0, 1] && [0, 1] + [2] == [0, 1, 2] && [0, 1, 2] + [3] == FOUR
    ensures [] + [1] == [1] && [1] + [2] == [1, 2] && [1, 2] + [3] == [1, 2, 3]
  {
  }

  lemma QuadOrder()
    ensures QUAD.rows.Keys == {0, 1, 2, 3} && OrderOk(QUAD.order, QUAD.rows.Keys)
  {
  }

  lemma QuadSplit()
    ensures ReplicasOf(QUAD.rows, FOUR) == [1, 2, 3] && PrimaryOf(QUAD.rows, FOUR) == Some(0)
  {
    QuadOrder();
    FourSplit(QUAD.rows);
  }

  lemma QuadMember(i: InstanceId)
    requires i in QUAD.rows
    ensures MemberOk(QUAD, 0, i)
  {
  }

  lemma QuadInitial()
    ensures Initial(QUAD_START)
  {
    QuadProvisioned();
    IsInitial(QUAD_START, 0);
  }

  lemma QuadProvisioned()
    ensures Provisioned(QUAD, 0)
  {
    QuadSplit();
    QuadOrder();
    QuadKeys();
    forall i | i in QUAD.rows ensures MemberOk(QUAD, 0, i) {
      QuadMember(i);
    }
    IsProvisioned(QUAD, 0);
  }

  lemma QuadKeys()
    ensures QUAD.volumes.Keys == QUAD.rows.Keys && QUAD.containers.Keys == QUAD.rows.Keys
  {
  }

  /** Members 1, 2 and 3 answer. */
  predicate ThreeAnswer(w: World) {
    && w.order == FOUR && w.born == FOUR && w.status == ClusterRunning
    && w.rows.Keys == {0, 1, 2, 3}
    && w.rows[1].cid == Some(1) && w.rows[2].cid == Some(2) && w.rows[3].cid == Some(3)
    && 1 in w.containers && 2 in w.containers && 3 in w.containers
    && w.containers[1] == UP_THREE[1] && w.containers[2] == UP_THREE[2] && w.containers[3] == UP_THREE[3]
  }

  /** One step of the guard over an answering member. */
  lemma ProbesNext(w: World, job: Job, r: InstanceId, rest: seq<InstanceId>, up: nat, ch: Choice)
    requires ThreeAnswer(w) && job.rows == w.rows && (r == 1 || r == 2 || r == 3) && ch == YES
    ensures Step(State(w, Probing(job, [r] + rest, up), NoPass), Controller(ch))
            == State(w, Probing(job, rest, up + 1), NoPass)
  {
    assert ([r] + rest)[1..] == rest;
    assert Exists(w, r);
  }

  lemma ThreeProbes(start: State, before: seq<Event>, w: World, job: Job) returns (events: seq<Event>)
    requires Holding(start, before, true, false) && ThreeAnswer(w) && job.rows == w.rows
    requires Run(start, before) == State(w, Probing(job, [1, 2, 3], 0), NoPass)
    ensures Holding(start, events, true, false) && Run(start, events) == State(w, Probing(job, [], 3), NoPass)
  {
    assert [1, 2, 3] == [1] + [2, 3] && [2, 3] == [2] + [3] && [3] == [3] + [];
    ProbesNext(w, job, 1, [2, 3], 0, YES);
    ProbesNext(w, job, 2, [3], 1, YES);
    ProbesNext(w, job, 3, [], 2, YES);
    var s := State(w, Probing(job, [1, 2, 3], 0), NoPass);
    s, events := Go(start, before, Controller(YES), s, true, false);
    s, events := Go(start, events, Controller(YES), s, true, false);
    s, events := Go(start, events, Controller(YES), s, true, false);
  }

  /** One step of the election over an answering member. */
  lemma ElectsNext(w: World, job: Job, r: InstanceId, rest: seq<InstanceId>, best: Option<InstanceId>, lsn: int,
                   ch: Choice)
    requires ThreeAnswer(w) && job.rows == w.rows && (r == 1 || r == 2 || r == 3)
    ensures Step(State(w, Electing(job, [r] + rest, best, lsn), NoPass), Controller(ch))
         == State(w, if ch.ok && ch.lsn > lsn then Electing(job, rest, Some(r), ch.lsn)
             else Electing(job, rest, best, lsn), NoPass)
  {
    assert ([r] + rest)[1..] == rest;
    assert Exists(w, r);
  }

  /** Of members 1, 2 and 3 only the chosen one's position can be read. */
  lemma ThreeElects(start: State, before: seq<Event>, w: World, job: Job, c1: Choice, c2: Choice, newP: InstanceId)
    returns (events: seq<Event>)
    requires Holding(start, before, true, false) && ThreeAnswer(w) && job.rows == w.rows
    requires Run(start, before) == State(w, Electing(job, [1, 2, 3], None, 0), NoPass)
    requires (c1 == YES && c2 == NO && newP == 1) || (c1 == NO && c2 == YES && newP == 2)
    ensures Holding(start, events, true, false) && Run(start, events) == State(w, Fencing(job, newP), NoPass)
  {
    assert [1, 2, 3] == [1] + [2, 3] && [2, 3] == [2] + [3] && [3] == [3] + [];
    var best, lsn := if c1 == YES then Some(1) else None, if c1 == YES then 5 else 0;
    ElectsNext(w, job, 1, [2, 3], None, 0, c1);
    ElectsNext(w, job, 2, [3], best, lsn, c2);
    ElectsNext(w, job, 3, [], Some(newP), 5, NO);
    var s := State(w, Electing(job, [1, 2, 3], None, 0), NoPass);
    s, events := Go(start, before, Controller(c1), s, true, false);
    s, events := Go(start, events, Controller(c2), s, true, false);
    s, events := Go(start, events, Controller(NO), s, true, false);
    assert s == State(w, Electing(job, [], Some(newP), 5), NoPass);
    events := ElectionEnds(start, events, w, job, newP);
  }

  lemma ElectionDone(w: World, job: Job, newP: InstanceId, lsn: int, ch: Choice)
    ensures Step(State(w, Electing(job, [], Some(newP), lsn), NoPass), Controller(ch))
            == State(w, Fencing(job, newP), NoPass)
  {
  }

  lemma ElectionEnds(start: State, before: seq<Event>, w: World, job: Job, newP: InstanceId)
      returns (events: seq<Event>)
    requires Holding(start, before, true, false) && Run(start, before)
             == State(w, Electing(job, [], Some(newP), 5), NoPass)
    ensures Holding(start, events, true, false) && Run(start, events) == State(w, Fencing(job, newP), NoPass)
  {
    var s := State(w, Electing(job, [], Some(newP), 5), NoPass);
    ElectionDone(w, job, newP, 5, YES);
    s, events := Go(start, before, Controller(YES), s, true, false);
  }

  lemma GuardPasses(start: State, before: seq<Event>, w: World, job: Job) returns (events: seq<Event>)
    requires Holding(start, before, true, false) && Run(start, before) == State(w, Probing(job, [], 3), NoPass)
    requires |job.replicas| == 3 || |job.replicas| == 4
    ensures Holding(start, events, true, false)
    ensures Run(start, events) == State(w, Electing(job, job.replicas, None, 0), NoPass)
  {
    assert Needed(3) == 3 && Needed(4) == 3;
    var s := State(w, Probing(job, [], 3), NoPass);
    s, events := Go(start, before, Controller(YES), s, true, false);
  }

  const QUAD_JOB := Job(QUAD.rows, Some(0), [1, 2, 3])

  lemma QuadUpToProbe() returns (events: seq<Event>)
    ensures Holding(QUAD_START, events, true, false)
    ensures Run(QUAD_START, events) == State(QUAD, Probing(QUAD_JOB, [1, 2, 3], 0), NoPass)
  {
    QuadSplit();
    var s;
    Begins(QUAD, QUAD_JOB, YES);
    StrikesOut(QUAD, QUAD_JOB, NO);
    s, events := Go(QUAD_START, [], Controller(YES), QUAD_START, true, false);
    s, events := Go(QUAD_START, events, Controller(NO), s, true, false);
  }

  lemma QuadAnswers()
    ensures ThreeAnswer(QUAD)
  {
    QuadOrder();
  }

  lemma QuadUpToFence() returns (events: seq<Event>)
    ensures Holding(QUAD_START, events, true, false) && Run(QUAD_START, events)
            == State(QUAD, Fencing(QUAD_JOB, 1), NoPass)
  {
    QuadAnswers();
    events := QuadUpToProbe();
    events := ThreeProbes(QUAD_START, events, QUAD, QUAD_JOB);
    events := GuardPasses(QUAD_START, events, QUAD, QUAD_JOB);
    events := ThreeElects(QUAD_START, events, QUAD, QUAD_JOB, YES, NO, 1);
  }

  const QUAD_FENCED := QUAD.(containers := UP_THREE)
  const QUAD_CLEARED := QUAD_FENCED.(rows := REPLICA_ROWS[0 := Row(Primary, None, Running)])
  const QUAD_FALLEN := QUAD_CLEARED.(volumes := QUAD.volumes[1 := Writable])
  const QUAD_HEADLESS := QUAD_FALLEN.(rows := REPLICA_ROWS[0 := Row(Replica, None, Errored)])

  lemma QuadFences(ch: Choice)
    requires ch == YES
    ensures Step(State(QUAD, Fencing(QUAD_JOB, 1), NoPass), Controller(ch))
            == State(QUAD_FENCED, ClearFenced(QUAD_JOB, 1), NoPass)
  {
    assert QUAD.containers - {0} == UP_THREE;
  }

  lemma QuadClears(ch: Choice)
    requires ch == YES
    ensures Step(State(QUAD_FENCED, ClearFenced(QUAD_JOB, 1), NoPass), Controller(ch))
         == State(QUAD_CLEARED, Promote(QUAD_JOB, 1), NoPass)
  {
    assert QUAD.rows[0 := Row(Primary, None, Running)] == QUAD_CLEARED.rows;
  }

  lemma QuadPromotes(ch: Choice)
    requires ch == YES
    ensures Step(State(QUAD_CLEARED, Promote(QUAD_JOB, 1), NoPass), Controller(ch))
         == State(QUAD_FALLEN, Demote(QUAD_JOB, 1, true), NoPass)
  {
  }

  lemma QuadDemotes(ch: Choice)
    requires ch == YES
    ensures Step(State(QUAD_FALLEN, Demote(QUAD_JOB, 1, true), NoPass), Controller(ch))
         == State(QUAD_HEADLESS, Crown(QUAD_JOB, 1, true), NoPass)
  {
    assert QUAD_FALLEN.rows[0 := Row(Primary, None, Errored)][0 := Row(Replica, None, Errored)] == QUAD_HEADLESS.rows;
  }

  lemma QuadLosesCrown(ch: Choice)
    requires ch == UNSAVED
    ensures var s := Step(State(QUAD_HEADLESS, Crown(QUAD_JOB, 1, true), NoPass), Controller(ch));
            s.w == QUAD_HEADLESS && s.pc.SavePrimary? && s.rec == NoPass
  {
    assert QUAD_HEADLESS.rows[1 := Row(Replica, Some(1), Running)] == QUAD_HEADLESS.rows;
  }

  /** The role of the new primary is lost: no row has role primary, and 1 is writable. */
  lemma QuadUpToHeadless() returns (events: seq<Event>)
    ensures Holding(QUAD_START, events, true, false) && Run(QUAD_START, events) == State(QUAD_HEADLESS, Idle, NoPass)
  {
    events := QuadUpToFence();
    QuadFences(YES);
    QuadClears(YES);
    QuadPromotes(YES);
    QuadDemotes(YES);
    QuadLosesCrown(UNSAVED);
    var s := State(QUAD, Fencing(QUAD_JOB, 1), NoPass);
    s, events := Go(QUAD_START, events, Controller(YES), s, true, false);
    s, events := Go(QUAD_START, events, Controller(YES), s, true, false);
    s, events := Go(QUAD_START, events, Controller(YES), s, true, false);
    s, events := Go(QUAD_START, events, Controller(YES), s, true, false);
    s, events := Go(QUAD_START, events, Controller(UNSAVED), s, true, false);
    s, events := Go(QUAD_START, events, ControlPlaneStop, s, true, false);
  }

  lemma HeadlessOrder()
    ensures QUAD_HEADLESS.rows.Keys == {0, 1, 2, 3} && ThreeAnswer(QUAD_HEADLESS)
    ensures ReplicasOf(QUAD_HEADLESS.rows, FOUR) == FOUR && PrimaryOf(QUAD_HEADLESS.rows, FOUR) == None
  {
    HeadlessKeys();
    FourSplit(QUAD_HEADLESS.rows);
  }

  lemma HeadlessKeys()
    ensures QUAD_HEADLESS.rows.Keys == {0, 1, 2, 3}
  {
  }

  const HEADLESS_JOB := Job(QUAD_HEADLESS.rows, None, FOUR)

  lemma HeadlessUpToProbe(before: seq<Event>) returns (events: seq<Event>)
    requires Holding(QUAD_START, before, true, false) && Run(QUAD_START, before) == State(QUAD_HEADLESS, Idle, NoPass)
    ensures Holding(QUAD_START, events, true, false)
    ensures Run(QUAD_START, events) == State(QUAD_HEADLESS, Probing(HEADLESS_JOB, FOUR, 0), NoPass)
  {
    HeadlessOrder();
    var s := State(QUAD_HEADLESS, Idle, NoPass);
    s, events := Go(QUAD_START, before, Controller(YES), s, true, false);
    assert s == State(QUAD_HEADLESS, Checking(HEADLESS_JOB), NoPass);
    s, events := Go(QUAD_START, events, Controller(NO), s, true, false);
  }

  lemma SkipsZero(ch: Choice)
    requires ch == NO
    ensures Step(State(QUAD_HEADLESS, Probing(HEADLESS_JOB, FOUR, 0), NoPass), Controller(ch))
         == State(QUAD_HEADLESS, Probing(HEADLESS_JOB, [1, 2, 3], 0), NoPass)
    ensures Step(State(QUAD_HEADLESS, Electing(HEADLESS_JOB, FOUR, None, 0), NoPass), Controller(ch))
         == State(QUAD_HEADLESS, Electing(HEADLESS_JOB, [1, 2, 3], None, 0), NoPass)
  {
    assert FOUR[1..] == [1, 2, 3];
  }

  /** Three of the four members without a primary answer, which the guard accepts. */
  lemma HeadlessUpToElection(before: seq<Event>) returns (events: seq<Event>)
    requires Holding(QUAD_START, before, true, false) && Run(QUAD_START, before) == State(QUAD_HEADLESS, Idle, NoPass)
    ensures Holding(QUAD_START, events, true, false)
    ensures Run(QUAD_START, events) == State(QUAD_HEADLESS, Electing(HEADLESS_JOB, [1, 2, 3], None, 0), NoPass)
  {
    var s;
    HeadlessOrder();
    SkipsZero(NO);
    events := HeadlessUpToProbe(before);
    s, events := Go(QUAD_START, events, Controller(NO),
        State(QUAD_HEADLESS, Probing(HEADLESS_JOB, FOUR, 0), NoPass), true, false);
    events := ThreeProbes(QUAD_START, events, QUAD_HEADLESS, HEADLESS_JOB);
    events := GuardPasses(QUAD_START, events, QUAD_HEADLESS, HEADLESS_JOB);
    s, events := Go(QUAD_START, events, Controller(NO),
        State(QUAD_HEADLESS, Electing(HEADLESS_JOB, FOUR, None, 0), NoPass), true, false);
  }

  lemma FencesNone(ch: Choice)
    requires ch == YES
    ensures Step(State(QUAD_HEADLESS, Fencing(HEADLESS_JOB, 2), NoPass), Controller(ch))
         == State(QUAD_HEADLESS, Promote(HEADLESS_JOB, 2), NoPass)
  {
  }

  lemma PromotesTwo(ch: Choice)
    requires ch == YES
    ensures var w := Step(State(QUAD_HEADLESS, Promote(HEADLESS_JOB, 2), NoPass), Controller(ch)).w;
            Writer(w, 1) && Writer(w, 2)
  {
  }

  /** The write of the new primary's role is lost: the next failover finds nobody to fence and promotes
      2 next to 1. */
  lemma LostRoleSplitsBrain() returns (events: seq<Event>)
    ensures Initial(QUAD_START) && Holding(QUAD_START, events, true, false) && !SingleWriter(Run(QUAD_START, events).w)
  {
    events := QuadUpToHeadless();
    events := HeadlessUpToElection(events);
    HeadlessOrder();
    events := ThreeElects(QUAD_START, events, QUAD_HEADLESS, HEADLESS_JOB, NO, YES, 2);
    FencesNone(YES);
    PromotesTwo(YES);
    var s := State(QUAD_HEADLESS, Fencing(HEADLESS_JOB, 2), NoPass);
    s, events := Go(QUAD_START, events, Controller(YES), s, true, false);
    s, events := Go(QUAD_START, events, Controller(YES), s, true, false);
    QuadInitial();
  }

  // ---------- Running, but short of full agreement ----------

  /** Without a promotion nobody accepts writes. */
  lemma NobodyWrites(w: World)
    requires w.containers == PairCrowned(false).containers && w.volumes == PairCrowned(false).volumes
    ensures forall i :: !Writer(w, i)
  {
  }

  /** pg_promote does nothing and psql exits zero: the failover reports Running and every record names
      instance 1, whose container runs, but nobody accepts writes. */
  lemma RunningWithoutWriter() returns (events: seq<Event>)
    ensures Initial(PAIR_START) && Trusted(PAIR_START, events)
    ensures var w := Run(PAIR_START, events).w;
            && w.status == ClusterRunning && w.primary == Some(1) && 1 in w.rows && w.rows[1].role == Primary
            && w.router == Some(Pool(1, [])) && 1 in w.containers && forall i :: !Writer(w, i)
  {
    events := PairFinishes(IDLE, YES);
    NobodyWrites(Run(PAIR_START, events).w);
    PairInitial();
  }

  /** The Degraded status written when the new primary id cannot be saved is overwritten at the end:
      the failover reports Running while the cluster row still names the fenced old primary. */
  lemma RunningWithStalePrimary() returns (events: seq<Event>)
    ensures Initial(PAIR_START) && Trusted(PAIR_START, events)
    ensures var w := Run(PAIR_START, events).w;
            && w.status == ClusterRunning && w.primary == Some(0)
            && 0 !in w.containers && 1 in w.rows && w.rows[1].role == Primary && Writer(w, 1)
  {
    events := PairFinishes(YES, UNSAVED);
    PairInitial();
  }

  // ---------- a re-cloned replica that the router does not get ----------

  lemma DropsTwo(ch: Choice)
    requires ch == YES
    ensures var s := Step(State(STRIPPED, Recloning(TRIO_RUN, [2], DropVolume), NoPass), Controller(ch));
            s.pc == Recloning(TRIO_RUN, [2], ClearRuntime) && Bare(s.w)
  {
  }

  lemma ClearsTwo(s: State, ch: Choice)
    requires ch == YES && s.pc == Recloning(TRIO_RUN, [2], ClearRuntime) && Bare(s.w)
    ensures var s' := Step(s, Controller(ch)); s'.pc == Recloning(TRIO_RUN, [2], PreparePrimary) && Bare(s'.w)
  {
  }

  /** 2 stripped of container, volume and recorded id. */
  lemma CloneStripped() returns (events: seq<Event>, s: State)
    ensures Trusted(START, events) && Run(START, events) == s
    ensures s.pc == Recloning(TRIO_RUN, [2], PreparePrimary) && Bare(s.w)
  {
    events := UpToClone();
    MarksTwo(NoPass, YES);
    RemovesTwo(NoPass, YES);
    DropsTwo(YES);
    s := State(RISEN, Recloning(TRIO_RUN, [2], MarkProvisioning), NoPass);
    s, events := Go(START, events, Controller(YES), s, true, true);
    s, events := Go(START, events, Controller(YES), s, true, true);
    s, events := Go(START, events, Controller(YES), s, true, true);
    ClearsTwo(s, YES);
    s, events := Go(START, events, Controller(YES), s, true, true);
  }

  /** What the re-clone of 2 needs from here on. */
  predicate Bare(w: World) {
    2 in w.rows && 2 in w.volumes && w.volumes[2] == Absent && 2 !in w.containers && w.status == ClusterRunning
  }

  lemma CloneFilled() returns (events: seq<Event>, s: State)
    ensures Trusted(START, events) && Run(START, events) == s
    ensures s.pc == Recloning(TRIO_RUN, [2], BaseBackup) && s.w.status == ClusterRunning
    ensures 2 in s.w.volumes && s.w.volumes[2] == Empty && 2 !in s.w.containers
  {
    events, s := CloneStripped();
    PreparesClone(s, YES);
    s, events := Go(START, events, Controller(YES), s, true, true);
    FillsClone(s, YES);
    s, events := Go(START, events, Controller(YES), s, true, true);
  }

  lemma PreparesClone(s: State, ch: Choice)
    requires ch == YES && s.pc == Recloning(TRIO_RUN, [2], PreparePrimary) && Bare(s.w)
    ensures var s' := Step(s, Controller(ch)); s'.pc == Recloning(TRIO_RUN, [2], CreateVolume) && Bare(s'.w)
  {
  }

  lemma FillsClone(s: State, ch: Choice)
    requires ch == YES && s.pc == Recloning(TRIO_RUN, [2], CreateVolume) && Bare(s.w)
    ensures var s' := Step(s, Controller(ch));
            && s'.pc == Recloning(TRIO_RUN, [2], BaseBackup) && s'.w.status == ClusterRunning
            && 2 in s'.w.volumes && s'.w.volumes[2] == Empty && 2 !in s'.w.containers
  {
  }

  lemma CloneCreated() returns (events: seq<Event>, s: State, c: ContainerId)
    ensures Trusted(START, events) && Run(START, events) == s
    ensures s.pc == Recloning(TRIO_RUN, [2], NoteContainer(c)) && Exists(s.w, c) && s.w.status == ClusterRunning
  {
    events, s := CloneFilled();
    BacksUpClone(s, YES);
    s, events := Go(START, events, Controller(YES), s, true, true);
    CreatesClone(s, YES);
    c := |s.w.born|;
    s, events := Go(START, events, Controller(YES), s, true, true);
  }

  lemma BacksUpClone(s: State, ch: Choice)
    requires ch == YES && s.pc == Recloning(TRIO_RUN, [2], BaseBackup) && 2 in s.w.volumes && s.w.volumes[2] == Empty
    ensures var s' := Step(s, Controller(ch));
            && s'.pc == Recloning(TRIO_RUN, [2], CreateContainer)
            && s'.w.containers == s.w.containers && s'.w.status == s.w.status
  {
  }

  lemma CreatesClone(s: State, ch: Choice)
    requires ch == YES && s.pc == Recloning(TRIO_RUN, [2], CreateContainer) && 2 !in s.w.containers
    ensures var s' := Step(s, Controller(ch));
            && s'.pc == Recloning(TRIO_RUN, [2], NoteContainer(|s.w.born|))
            && Exists(s'.w, |s.w.born|) && s'.w.status == s.w.status
  {
  }

  lemma NotesClone(s: State, c: ContainerId, ch: Choice)
    requires ch == YES && s.pc == Recloning(TRIO_RUN, [2], NoteContainer(c)) && Exists(s.w, c)
    ensures var s' := Step(s, Controller(ch));
            s'.pc == Recloning(TRIO_RUN, [2], StartContainer(c)) && Exists(s'.w, c) && s'.w.status == s.w.status
  {
  }

  lemma StartsClone(s: State, c: ContainerId, ch: Choice)
    requires ch == YES && s.pc == Recloning(TRIO_RUN, [2], StartContainer(c)) && Exists(s.w, c)
    ensures var s' := Step(s, Controller(ch));
            s'.pc == Recloning(TRIO_RUN, [2], AwaitStreaming(c)) && s'.w.status == s.w.status
  {
  }

  lemma CloneStarted() returns (events: seq<Event>, s: State, c: ContainerId)
    ensures Trusted(START, events) && Run(START, events) == s
    ensures s.pc == Recloning(TRIO_RUN, [2], AwaitStreaming(c)) && s.w.status == ClusterRunning
  {
    events, s, c := CloneCreated();
    NotesClone(s, c, YES);
    s, events := Go(START, events, Controller(YES), s, true, true);
    StartsClone(s, c, YES);
    s, events := Go(START, events, Controller(YES), s, true, true);
  }

  lemma CloneRunning() returns (events: seq<Event>, s: State)
    ensures Trusted(START, events) && Run(START, events) == s
    ensures s.pc == Recloning(TRIO_RUN, [2], Reread) && s.w.status == ClusterRunning
  {
    var c;
    events, s, c := CloneStarted();
    s, events := Go(START, events, Controller(YES), s, true, true);
    assert s.pc == Recloning(TRIO_RUN, [2], MarkRunning);
    s, events := Go(START, events, Controller(YES), s, true, true);
  }

  const UNREAD_RUN := TRIO_RUN.(recloned := [2], unread := {2})

  lemma UpToUnread() returns (events: seq<Event>, s: State)
    ensures Trusted(START, events) && Run(START, events) == s && s.pc == DropRouter(UNREAD_RUN)
  {
    events, s := CloneRunning();
    s, events := Go(START, events, Controller(NO), s, true, true);
    assert [2][1..] == [] && s.pc == Recloning(UNREAD_RUN, [], MarkProvisioning);
    s, events := Go(START, events, Controller(YES), s, true, true);
  }

  /** 2 is re-cloned, but its row cannot be read back: the failover reports Running, not Degraded, and the
      router has no replica and serves reads from the primary. */
  lemma RunningWithoutReplica() returns (events: seq<Event>)
    ensures Initial(START) && Trusted(START, events)
    ensures var w := Run(START, events).w;
            w.status == ClusterRunning && w.router == Some(Pool(1, [])) && Survivors([1, 2], 1) == [2]
  {
    var s;
    events, s := UpToUnread();
    events := SmoothFinish(START, events, s);
    assert [1, 2][..1] == [1] && [1][..0] == [] && Survivors([1], 1) == [];
    TrioInitial();
  }
}
