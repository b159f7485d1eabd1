/** Small clusters and the runs of the failover protocol on them, built up event by event. */
module FailoverScenarios {
  import opened Optional
  import opened Fleet
  import opened Quorum
  import opened RouterPool
  import opened FailoverProtocol

  lemma Extend(s: State, events: seq<Event>, e: Event, stops: bool, writes: bool)
    requires Holding(s, events, stops, writes)
    requires (stops ==> StopOk(Run(s, events), e)) && (writes ==> WriteOk(Run(s, events), e))
    ensures Holding(s, events + [e], stops, writes)
    ensures Run(s, events + [e]) == Step(Run(s, events), e)
  {
    assert (events + [e])[..|events|] == events;
  }

  /** One more event of a run. */
  lemma Go(start: State, events: seq<Event>, e: Event, s: State, stops: bool, writes: bool)
    returns (s': State, events': seq<Event>)
    requires Holding(start, events, stops, writes) && Run(start, events) == s
    requires (stops ==> StopOk(s, e)) && (writes ==> WriteOk(s, e))
    ensures Holding(start, events', stops, writes) && Run(start, events') == s'
    ensures s' == Step(s, e) && events' == events + [e]
  {
    Extend(start, events, e, stops, writes);
    s', events' := Step(s, e), events + [e];
  }

  const YES := Choice(true, true, true, 5, Completed)
  const NO := Choice(false, true, true, 0, Nothing)
  const BETTER := YES.(lsn := 9)
  const UNSAVED := YES.(write := false)
  /** psql exits zero although pg_promote gave up without promoting. */
  const IDLE := YES.(effect := Nothing)
  /** The exec fails after pg_promote has done its work. */
  const BROKEN := YES.(ok := false)

  // ---------- three nodes ----------

  const STANDBYS := map[1 := Container(1, true), 2 := Container(2, true)]

  /** Primary 0 with replicas 1 and 2, each in its first container. */
  const TRIO := World(
    [0, 1, 2],
    map[0 := Row(Primary, Some(0), Running), 1 := Row(Replica, Some(1), Running), 2 := Row(Replica, Some(2), Running)],
    map[0 := Writable, 1 := Standby, 2 := Standby],
    [0, 1, 2],
    map[0 := Container(0, true), 1 := Container(1, true), 2 := Container(2, true)],
    ClusterRunning, Some(0), Some(Router(0, [1, 2], false)))

  const START := State(TRIO, Idle, NoPass)
  const TRIO_JOB := Job(TRIO.rows, Some(0), [1, 2])

  lemma TrioSplit(rows: map<InstanceId, Row>)
    requires 0 in rows && 1 in rows && 2 in rows
    requires rows[0].role == Primary && rows[1].role == rows[2].role == Replica
    ensures ReplicasOf(rows, [0, 1, 2]) == [1, 2] && PrimaryOf(rows, [0, 1, 2]) == Some(0)
  {
    assert [0, 1, 2][..2] == [0, 1] && [0, 1][..1] == [0] && [0][..0] == [];
    assert ReplicasOf(rows, [0]) == [] && ReplicasOf(rows, [0, 1]) == [1];
    assert PrimaryOf(rows, [0]) == Some(0) && PrimaryOf(rows, [0, 1]) == Some(0);
  }

  lemma TrioProvisioned()
    ensures Provisioned(TRIO, 0)
  {
    TrioSplit(TRIO.rows);
    TrioOrder();
    forall i | i in TRIO.rows ensures MemberOk(TRIO, 0, i) {
      TrioMember(i);
    }
    IsProvisioned(TRIO, 0);
  }

  lemma TrioMember(i: InstanceId)
    requires i in TRIO.rows
    ensures MemberOk(TRIO, 0, i)
  {
  }

  lemma TrioInitial()
    ensures Initial(START)
  {
    TrioProvisioned();
    IsInitial(START, 0);
  }

  /** What a provisioned cluster asks of one member. */
  predicate MemberOk(w: World, p: InstanceId, i: InstanceId) {
    && i in w.rows && i in w.volumes && i in w.containers
    && w.rows[i].role == (if i == p then Primary else Replica)
    && w.volumes[i] == (if i == p then Writable else Standby)
    && w.rows[i].cid == Some(w.containers[i].id)
    && w.containers[i].id < |w.born| && w.born[w.containers[i].id] == i
  }

  lemma IsProvisioned(w: World, p: InstanceId)
    requires OrderOk(w.order, w.rows.Keys) && p in w.rows
    requires w.volumes.Keys == w.rows.Keys && w.containers.Keys == w.rows.Keys
    requires forall i :: i in w.rows ==> MemberOk(w, p, i)
    requires w.status == ClusterRunning && w.primary == Some(p)
    requires w.router == Some(Pool(p, ReplicasOf(w.rows, w.order)))
    ensures Provisioned(w, p)
  {
    forall i | i in w.rows
      ensures && w.rows[i].role == (if i == p then Primary else Replica)
              && w.volumes[i] == (if i == p then Writable else Standby)
              && w.rows[i].cid == Some(w.containers[i].id)
              && w.containers[i].id < |w.born| && w.born[w.containers[i].id] == i
    {
      assert MemberOk(w, p, i);
    }
  }

  lemma IsInitial(s: State, p: InstanceId)
    requires Provisioned(s.w, p) && s.pc == Idle && s.rec == NoPass
    ensures Initial(s)
  {
  }

  lemma TrioOrder()
    ensures TRIO.rows.Keys == TRIO.volumes.Keys == TRIO.containers.Keys == {0, 1, 2}
    ensures OrderOk(TRIO.order, TRIO.rows.Keys)
  {
  }

  predicate TwoAnswer(w: World) {
    && w.order == [0, 1, 2] && w.born == [0, 1, 2] && w.status == ClusterRunning
    && 0 in w.rows && 1 in w.rows && 2 in w.rows
    && w.rows[0].role == Primary && w.rows[1].role == w.rows[2].role == Replica
    && w.rows[1].cid == Some(1) && w.rows[2].cid == Some(2)
    && 1 in w.containers && 2 in w.containers
    && w.containers[1] == Container(1, true) && w.containers[2] == Container(2, true)
  }

  lemma Begins(w: World, job: Job, ch: Choice)
    requires ch == YES && Supervised(w.status)
    requires job == Job(w.rows, PrimaryOf(w.rows, w.order), ReplicasOf(w.rows, w.order))
    ensures Step(State(w, Idle, NoPass), Controller(ch)) == State(w, Checking(job), NoPass)
  {
  }

  /** The primary does not answer, and this is the last strike. */
  lemma StrikesOut(w: World, job: Job, ch: Choice)
    requires ch == NO
    ensures Step(State(w, Checking(job), NoPass), Controller(ch)) == State(w, Probing(job, job.replicas, 0), NoPass)
  {
  }

  lemma UpToProbe(start: State, before: seq<Event>, w: World, stops: bool, writes: bool) returns (events: seq<Event>)
    requires Holding(start, before, stops, writes) && Run(start, before) == State(w, Idle, NoPass)
    requires TwoAnswer(w)
    ensures Holding(start, events, stops, writes)
    ensures Run(start, events) == State(w, Probing(Job(w.rows, Some(0), [1, 2]), [1, 2], 0), NoPass)
  {
    TrioSplit(w.rows);
    var s;
    Begins(w, Job(w.rows, Some(0), [1, 2]), YES);
    StrikesOut(w, Job(w.rows, Some(0), [1, 2]), NO);
    s, events := Go(start, before, Controller(YES), State(w, Idle, NoPass), stops, writes);
    s, events := Go(start, events, Controller(NO), s, stops, writes);
  }

  lemma ProbesTwo(w: World, job: Job, ch: Choice)
    requires TwoAnswer(w) && job.rows == w.rows && ch == YES
    ensures Step(State(w, Probing(job, [1, 2], 0), NoPass), Controller(ch)) == State(w, Probing(job, [2], 1), NoPass)
    ensures Step(State(w, Probing(job, [2], 1), NoPass), Controller(ch)) == State(w, Probing(job, [], 2), NoPass)
  {
    assert [1, 2][1..] == [2] && [2][1..] == [];
    assert Exists(w, 1) && Exists(w, 2);
  }

  /** Replicas 1 and 2 answer and the primary does not: the guard lets the failover through. */
  lemma UpToElection(start: State, before: seq<Event>, w: World, stops: bool, writes: bool)
    returns (events: seq<Event>)
    requires Holding(start, before, stops, writes) && Run(start, before) == State(w, Idle, NoPass)
    requires TwoAnswer(w)
    ensures Holding(start, events, stops, writes)
    ensures Run(start, events) == State(w, Electing(Job(w.rows, Some(0), [1, 2]), [1, 2], None, 0), NoPass)
  {
    var job := Job(w.rows, Some(0), [1, 2]);
    events := UpToProbe(start, before, w, stops, writes);
    ProbesTwo(w, job, YES);
    assert Needed(2) == 2;
    var s := State(w, Probing(job, [1, 2], 0), NoPass);
    s, events := Go(start, events, Controller(YES), s, stops, writes);
    s, events := Go(start, events, Controller(YES), s, stops, writes);
    s, events := Go(start, events, Controller(YES), s, stops, writes);
  }

  /** The replica that reports the higher position becomes the candidate. */
  lemma UpToFence(start: State, before: seq<Event>, w: World, second: Choice, newP: InstanceId,
                  stops: bool, writes: bool)
    returns (events: seq<Event>)
    requires Holding(start, before, stops, writes) && Run(start, before) == State(w, Idle, NoPass)
    requires TwoAnswer(w) && ((second == YES && newP == 1) || (second == BETTER && newP == 2))
    ensures Holding(start, events, stops, writes)
    ensures Run(start, events) == State(w, Fencing(Job(w.rows, Some(0), [1, 2]), newP), NoPass)
  {
    var job := Job(w.rows, Some(0), [1, 2]);
    events := UpToElection(start, before, w, stops, writes);
    var s := State(w, Electing(job, [1, 2], None, 0), NoPass);
    assert [1, 2][1..] == [2] && [2][1..] == [];
    s, events := Go(start, events, Controller(YES), s, stops, writes);
    assert s == State(w, Electing(job, [2], Some(1), 5), NoPass);
    s, events := Go(start, events, Controller(second), s, stops, writes);
    assert s == State(w, Electing(job, [], Some(newP), second.lsn), NoPass);
    s, events := Go(start, events, Controller(YES), s, stops, writes);
  }

  /** After the first promotion: 0 is fenced, 1 is writable, the rows still say 0. */
  const FENCED := TRIO.(containers := STANDBYS)
  const CLEARED := FENCED.(rows := TRIO.rows[0 := Row(Primary, None, Running)])
  const FALLEN := CLEARED.(volumes := TRIO.volumes[1 := Writable])

  lemma FencesZero(ch: Choice)
    requires ch == YES
    ensures Step(State(TRIO, Fencing(TRIO_JOB, 1), NoPass), Controller(ch))
            == State(FENCED, ClearFenced(TRIO_JOB, 1), NoPass)
  {
    assert TRIO.containers - {0} == STANDBYS;
  }

  lemma ClearsZero(ch: Choice)
    requires ch == YES
    ensures Step(State(FENCED, ClearFenced(TRIO_JOB, 1), NoPass), Controller(ch))
            == State(CLEARED, Promote(TRIO_JOB, 1), NoPass)
  {
  }

  lemma PromotesOne(ch: Choice)
    requires ch == YES || ch == BROKEN
    ensures Step(State(CLEARED, Promote(TRIO_JOB, 1), NoPass), Controller(ch))
         == State(FALLEN, if ch.ok then Demote(TRIO_JOB, 1, true) else PromoteFailed(TRIO_JOB, 1), NoPass)
  {
  }

  /** 1 has been promoted, whatever the call reported. */
  lemma UpToPromotion(promote: Choice, stops: bool, writes: bool) returns (events: seq<Event>)
    requires promote == YES || promote == BROKEN
    ensures Holding(START, events, stops, writes)
    ensures Run(START, events)
         == State(FALLEN, if promote.ok then Demote(TRIO_JOB, 1, true) else PromoteFailed(TRIO_JOB, 1), NoPass)
  {
    events := UpToFence(START, [], TRIO, YES, 1, stops, writes);
    FencesZero(YES);
    ClearsZero(YES);
    PromotesOne(promote);
    var s := State(TRIO, Fencing(TRIO_JOB, 1), NoPass);
    s, events := Go(START, events, Controller(YES), s, stops, writes);
    s, events := Go(START, events, Controller(YES), s, stops, writes);
    s, events := Go(START, events, Controller(promote), s, stops, writes);
  }

  // ---------- the rest of the three-node failover ----------

  const DEMOTED := FALLEN.(rows := FALLEN.rows[0 := Row(Replica, None, Errored)])
  const CROWNED := DEMOTED.(rows := DEMOTED.rows[1 := Row(Primary, Some(1), Running)])
  const RISEN := CROWNED.(primary := Some(1))
  const TRIO_RUN := Rejoin(TRIO_JOB, 1, true, Some(0), true, false, [], {}, [])

  lemma DemotesZero(ch: Choice)
    requires ch == YES
    ensures Step(State(FALLEN, Demote(TRIO_JOB, 1, true), NoPass), Controller(ch))
            == State(DEMOTED, Crown(TRIO_JOB, 1, true), NoPass)
  {
  }

  /** Crowning when no other row is primary. */
  lemma Crowns(w: World, job: Job, newP: InstanceId, took: bool, ch: Choice)
    requires ch == YES && newP in w.rows && forall j :: j in w.rows && j != newP ==> w.rows[j].role != Primary
    ensures Step(State(w, Crown(job, newP, took), NoPass), Controller(ch))
         == State(w.(rows := w.rows[newP := Row(Primary, w.rows[newP].cid, Running)]),
                  SavePrimary(Rejoin(job, newP, took, w.primary, false, false, [], {}, []),
                              Survivors(job.replicas, newP)), NoPass)
  {
    var row := w.rows[newP].(role := Primary);
    assert w.rows[newP := row][newP := row.(status := Running)] == w.rows[newP := row.(status := Running)];
  }

  lemma CrownsOne(ch: Choice)
    requires ch == YES
    ensures Step(State(DEMOTED, Crown(TRIO_JOB, 1, true), NoPass), Controller(ch))
         == State(CROWNED, SavePrimary(TRIO_RUN.(primarySaved := false), [2]), NoPass)
  {
    assert [1, 2][..1] == [1] && [1][..0] == [];
    assert Survivors([1], 1) == [] && Survivors([1, 2], 1) == [2];
    Crowns(DEMOTED, TRIO_JOB, 1, true, ch);
  }

  lemma SavesOne(ch: Choice)
    requires ch == YES
    ensures Step(State(CROWNED, SavePrimary(TRIO_RUN.(primarySaved := false), [2]), NoPass), Controller(ch))
         == State(RISEN, Recloning(TRIO_RUN, [2], MarkProvisioning), NoPass)
  {
  }

  /** 1 is the new primary everywhere, and 2 is about to be re-cloned. */
  lemma UpToClone() returns (events: seq<Event>)
    ensures Trusted(START, events) && Run(START, events)
            == State(RISEN, Recloning(TRIO_RUN, [2], MarkProvisioning), NoPass)
  {
    events := UpToPromotion(YES, true, true);
    DemotesZero(YES);
    CrownsOne(YES);
    SavesOne(YES);
    var s := State(FALLEN, Demote(TRIO_JOB, 1, true), NoPass);
    s, events := Go(START, events, Controller(YES), s, true, true);
    s, events := Go(START, events, Controller(YES), s, true, true);
    s, events := Go(START, events, Controller(YES), s, true, true);
  }

  /** Re-cloning 2: marked, its container and volume gone, its row cleared. */
  const MARKED := RISEN.(rows := RISEN.rows[2 := Row(Replica, Some(2), Provisioning)])
  const STRIPPED := MARKED.(containers := map[1 := Container(1, true)])

  lemma MarksTwo(rec: Pass, ch: Choice)
    requires ch == YES
    ensures Step(State(RISEN, Recloning(TRIO_RUN, [2], MarkProvisioning), rec), Controller(ch))
         == State(MARKED, Recloning(TRIO_RUN, [2], RemoveContainer), rec)
  {
  }

  lemma RemovesTwo(rec: Pass, ch: Choice)
    requires ch == YES
    ensures Step(State(MARKED, Recloning(TRIO_RUN, [2], RemoveContainer), rec), Controller(ch))
         == State(STRIPPED, Recloning(TRIO_RUN, [2], DropVolume), rec)
  {
    assert STANDBYS - {2} == map[1 := Container(1, true)];
  }

  // ---------- a smooth tail ----------

  lemma SavesRouter(s: State, ch: Choice)
    requires s.pc.SaveRouter? && ch == YES
    ensures Step(s, Controller(ch)) == s.(pc := Finish(s.pc.run))
  {
  }

  lemma Finishes(s: State, ch: Choice)
    requires s.pc.Finish? && !s.pc.run.degraded && ch == YES
    ensures Step(s, Controller(ch)) == s.(pc := Idle, w := s.w.(status := ClusterRunning))
  {
  }

  lemma SmoothRouter(start: State, before: seq<Event>, s: State) returns (events: seq<Event>, t: State)
    requires Trusted(start, before) && Run(start, before) == s && s.pc.DropRouter?
    ensures Trusted(start, events) && Run(start, events) == t
    ensures t == s.(pc := SaveRouter(s.pc.run), w := s.w.(router := Some(Pool(s.pc.run.newP, s.pc.run.reattached))))
  {
    t, events := Go(start, before, Controller(YES), s, true, true);
    t, events := Go(start, events, Controller(YES), t, true, true);
  }

  lemma SmoothEnd(start: State, before: seq<Event>, s: State) returns (events: seq<Event>)
    requires Trusted(start, before) && Run(start, before) == s && s.pc.SaveRouter? && !s.pc.run.degraded
    ensures Trusted(start, events) && Run(start, events) == s.(pc := Idle, w := s.w.(status := ClusterRunning))
  {
    var t;
    SavesRouter(s, YES);
    t, events := Go(start, before, Controller(YES), s, true, true);
    Finishes(t, YES);
    t, events := Go(start, events, Controller(YES), t, true, true);
  }

  /** From the router on, nothing goes wrong. */
  lemma SmoothFinish(start: State, before: seq<Event>, s: State) returns (events: seq<Event>)
    requires Trusted(start, before) && Run(start, before) == s && s.pc.DropRouter? && !s.pc.run.degraded
    ensures Trusted(start, events)
    ensures Run(start, events) == s.(pc := Idle, w := s.w.(
              status := ClusterRunning, router := Some(Pool(s.pc.run.newP, s.pc.run.reattached))))
  {
    var t;
    events, t := SmoothRouter(start, before, s);
    events := SmoothEnd(start, events, t);
  }

  // ---------- two nodes ----------

  /** Primary 0 with the single replica 1. */
  const PAIR := World(
    [0, 1],
    map[0 := Row(Primary, Some(0), Running), 1 := Row(Replica, Some(1), Running)],
    map[0 := Writable, 1 := Standby],
    [0, 1],
    map[0 := Container(0, true), 1 := Container(1, true)],
    ClusterRunning, Some(0), Some(Router(0, [1], false)))

  const PAIR_START := State(PAIR, Idle, NoPass)
  const PAIR_JOB := Job(PAIR.rows, Some(0), [1])

  lemma PairSplit()
    ensures ReplicasOf(PAIR.rows, [0, 1]) == [1] && PrimaryOf(PAIR.rows, [0, 1]) == Some(0)
  {
    assert [0, 1][..1] == [0] && [0][..0] == [];
    assert ReplicasOf(PAIR.rows, [0]) == [] && PrimaryOf(PAIR.rows, [0]) == Some(0);
  }

  lemma PairMembers()
    ensures PAIR.rows.Keys == PAIR.volumes.Keys == PAIR.containers.Keys && OrderOk(PAIR.order, PAIR.rows.Keys)
  {
  }

  lemma PairMember(i: InstanceId)
    requires i in PAIR.rows
    ensures MemberOk(PAIR, 0, i)
  {
  }

  lemma PairProvisioned()
    ensures Provisioned(PAIR, 0)
  {
    PairSplit();
    PairMembers();
    forall i | i in PAIR.rows ensures MemberOk(PAIR, 0, i) {
      PairMember(i);
    }
    IsProvisioned(PAIR, 0);
  }

  lemma PairInitial()
    ensures Initial(PAIR_START)
  {
    PairProvisioned();
    IsInitial(PAIR_START, 0);
  }

  lemma PairUpToProbe() returns (events: seq<Event>)
    ensures Trusted(PAIR_START, events) && Run(PAIR_START, events) == State(PAIR, Probing(PAIR_JOB, [1], 0), NoPass)
  {
    PairSplit();
    var s;
    Begins(PAIR, PAIR_JOB, YES);
    StrikesOut(PAIR, PAIR_JOB, NO);
    s, events := Go(PAIR_START, [], Controller(YES), PAIR_START, true, true);
    s, events := Go(PAIR_START, events, Controller(NO), s, true, true);
  }

  lemma PairUpToElection() returns (events: seq<Event>)
    ensures Trusted(PAIR_START, events)
    ensures Run(PAIR_START, events) == State(PAIR, Electing(PAIR_JOB, [1], None, 0), NoPass)
  {
    events := PairUpToProbe();
    var s := State(PAIR, Probing(PAIR_JOB, [1], 0), NoPass);
    assert [1][1..] == [];
    s, events := Go(PAIR_START, events, Controller(YES), s, true, true);
    assert s == State(PAIR, Probing(PAIR_JOB, [], 1), NoPass);
    s, events := Go(PAIR_START, events, Controller(YES), s, true, true);
  }

  lemma PairUpToFence() returns (events: seq<Event>)
    ensures Trusted(PAIR_START, events) && Run(PAIR_START, events) == State(PAIR, Fencing(PAIR_JOB, 1), NoPass)
  {
    events := PairUpToElection();
    var s := State(PAIR, Electing(PAIR_JOB, [1], None, 0), NoPass);
    assert [1][1..] == [];
    s, events := Go(PAIR_START, events, Controller(YES), s, true, true);
    s, events := Go(PAIR_START, events, Controller(YES), s, true, true);
  }

  const PAIR_FENCED := PAIR.(containers := map[1 := Container(1, true)])
  const PAIR_CLEARED := PAIR_FENCED.(
    rows := map[0 := Row(Primary, None, Running), 1 := Row(Replica, Some(1), Running)])

  /** The world after the promotion, which took effect or not. */
  function PairPromoted(took: bool): World {
    PAIR_CLEARED.(volumes := PAIR.volumes[1 := if took then Writable else Standby])
  }

  lemma PairFences(ch: Choice)
    requires ch == YES
    ensures Step(State(PAIR, Fencing(PAIR_JOB, 1), NoPass), Controller(ch))
            == State(PAIR_FENCED, ClearFenced(PAIR_JOB, 1), NoPass)
  {
    assert PAIR.containers - {0} == PAIR_FENCED.containers;
  }

  lemma PairClears(ch: Choice)
    requires ch == YES
    ensures Step(State(PAIR_FENCED, ClearFenced(PAIR_JOB, 1), NoPass), Controller(ch))
         == State(PAIR_CLEARED, Promote(PAIR_JOB, 1), NoPass)
  {
    assert PAIR_FENCED.rows[0 := Row(Primary, None, Running)] == PAIR_CLEARED.rows;
  }

  lemma PairPromotes(ch: Choice)
    requires ch == YES || ch == IDLE
    ensures Step(State(PAIR_CLEARED, Promote(PAIR_JOB, 1), NoPass), Controller(ch))
         == State(PairPromoted(ch == YES), Demote(PAIR_JOB, 1, ch == YES), NoPass)
  {
    assert PAIR.volumes[1 := Standby] == PAIR.volumes;
  }

  lemma PairUpToDemote(promote: Choice) returns (events: seq<Event>)
    requires promote == YES || promote == IDLE
    ensures Trusted(PAIR_START, events)
    ensures Run(PAIR_START, events) == State(PairPromoted(promote == YES), Demote(PAIR_JOB, 1, promote == YES), NoPass)
  {
    events := PairUpToFence();
    PairFences(YES);
    PairClears(YES);
    PairPromotes(promote);
    var s := State(PAIR, Fencing(PAIR_JOB, 1), NoPass);
    s, events := Go(PAIR_START, events, Controller(YES), s, true, true);
    s, events := Go(PAIR_START, events, Controller(YES), s, true, true);
    s, events := Go(PAIR_START, events, Controller(promote), s, true, true);
  }

  function PairDemoted(took: bool): World {
    PairPromoted(took).(rows := map[0 := Row(Replica, None, Errored), 1 := Row(Replica, Some(1), Running)])
  }

  function PairCrowned(took: bool): World {
    PairPromoted(took).(rows := map[0 := Row(Replica, None, Errored), 1 := Row(Primary, Some(1), Running)])
  }

  function PairRun(took: bool): Rejoin {
    Rejoin(PAIR_JOB, 1, took, Some(0), false, false, [], {}, [])
  }

  lemma PairDemotes(took: bool, ch: Choice)
    requires ch == YES
    ensures Step(State(PairPromoted(took), Demote(PAIR_JOB, 1, took), NoPass), Controller(ch))
         == State(PairDemoted(took), Crown(PAIR_JOB, 1, took), NoPass)
  {
    assert PAIR_CLEARED.rows[0 := Row(Primary, None, Errored)][0 := Row(Replica, None, Errored)]
           == PairDemoted(took).rows;
  }

  lemma PairCrowns(took: bool, ch: Choice)
    requires ch == YES
    ensures Step(State(PairDemoted(took), Crown(PAIR_JOB, 1, took), NoPass), Controller(ch))
         == State(PairCrowned(took), SavePrimary(PairRun(took), []), NoPass)
  {
    assert [1][..0] == [] && Survivors([1], 1) == [];
    assert PairDemoted(took).rows[1 := Row(Primary, Some(1), Running)] == PairCrowned(took).rows;
    Crowns(PairDemoted(took), PAIR_JOB, 1, took, ch);
  }

  lemma PairUpToSave(promote: Choice) returns (events: seq<Event>)
    requires promote == YES || promote == IDLE
    ensures Trusted(PAIR_START, events)
    ensures Run(PAIR_START, events)
            == State(PairCrowned(promote == YES), SavePrimary(PairRun(promote == YES), []), NoPass)
  {
    events := PairUpToDemote(promote);
    PairDemotes(promote == YES, YES);
    PairCrowns(promote == YES, YES);
    var s := State(PairPromoted(promote == YES), Demote(PAIR_JOB, 1, promote == YES), NoPass);
    s, events := Go(PAIR_START, events, Controller(YES), s, true, true);
    s, events := Go(PAIR_START, events, Controller(YES), s, true, true);
  }

  /** Saving the primary id, or losing that write, and the empty loop of re-clones. */
  lemma PairSaves(took: bool, save: Choice)
    requires save == YES || save == UNSAVED
    ensures var s := Step(State(PairCrowned(took), SavePrimary(PairRun(took), []), NoPass), Controller(save));
            && s.pc == Recloning(PairRun(took).(primarySaved := save.write), [], MarkProvisioning) && s.rec == NoPass
            && s.w == PairCrowned(took).(primary := if save.write then Some(1) else Some(0), status := s.w.status)
  {
  }

  /** A two-node failover that reports Running, with or without a promotion that took effect and with
      or without the new primary id saved. */
  lemma PairFinishes(promote: Choice, save: Choice) returns (events: seq<Event>)
    requires (promote == YES || promote == IDLE) && (save == YES || save == UNSAVED)
    ensures Trusted(PAIR_START, events)
    ensures Run(PAIR_START, events).w == PairCrowned(promote == YES).(
              primary := if save.write then Some(1) else Some(0), router := Some(Pool(1, [])))
  {
    events := PairUpToSave(promote);
    PairSaves(promote == YES, save);
    var s := State(PairCrowned(promote == YES), SavePrimary(PairRun(promote == YES), []), NoPass);
    s, events := Go(PAIR_START, events, Controller(save), s, true, true);
    s, events := Go(PAIR_START, events, Controller(YES), s, true, true);
    events := SmoothFinish(PAIR_START, events, s);
  }
}
