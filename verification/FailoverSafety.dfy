/** Safety of the failover protocol over every trusted run: no split brain, at most one primary
    row, and agreement of rows, writable node and router when a failover reports Running. */
module FailoverSafety {
  import opened Optional
  import opened Fleet
  import opened RouterPool
  import opened FailoverProtocol

  // ---------- the inductive invariant ----------

  ghost predicate Owned(w: World, i: InstanceId, cid: Option<ContainerId>) {
    cid.Some? ==> cid.value < |w.born| && w.born[cid.value] == i
  }

  ghost predicate Holds(w: World, i: InstanceId, v: Volume) {
    i in w.volumes && w.volumes[i] == v
  }

  ghost predicate CanWrite(w: World, i: InstanceId) {
    Holds(w, i, Promoting) || Holds(w, i, Writable)
  }

  ghost predicate RowsOwned(w: World, rows: map<InstanceId, Row>) {
    forall i :: i in rows ==> Owned(w, i, rows[i].cid)
  }

  /** Facts every step keeps: recorded ids belong to their instance, the set of members is fixed. */
  ghost predicate WorldOk(w: World) {
    && OrderOk(w.order, w.rows.Keys)
    && w.volumes.Keys == w.rows.Keys && w.containers.Keys <= w.rows.Keys
    && (forall i :: i in w.containers ==> Owned(w, i, Some(w.containers[i].id)))
    && RowsOwned(w, w.rows)
    && OnePrimaryRow(w.rows)
  }

  /** Whoever can accept writes has role primary and a recorded container: fencing will find it. */
  ghost predicate Named(w: World, rows: map<InstanceId, Row>) {
    forall i :: Writer(w, i) ==> i in rows && rows[i].role == Primary && rows[i].cid.Some?
  }

  ghost predicate WritersAre(w: World, p: InstanceId) {
    forall i :: Writer(w, i) ==> i == p
  }

  ghost predicate NoWriter(w: World) {
    forall i :: !Writer(w, i)
  }

  /** The pass's snapshot still has the current roles. */
  ghost predicate SnapshotOk(w: World, job: Job) {
    && job.rows.Keys == w.rows.Keys
    && (forall i :: i in w.rows ==> job.rows[i].role == w.rows[i].role)
    && RowsOwned(w, job.rows)
    && SplitOk(job)
  }

  /** The snapshot still names every writer, so the fence will aim at it. */
  ghost predicate JobOk(w: World, job: Job) {
    SnapshotOk(w, job) && Named(w, job.rows) && Named(w, w.rows)
  }

  /** What splitting the members by role found. */
  ghost predicate SplitOk(job: Job) {
    && (job.oldP.Some? ==> job.oldP.value in job.rows && job.rows[job.oldP.value].role == Primary)
    && (job.oldP.None? ==> NoPrimaryRow(job.rows))
    && Distinct(job.replicas)
    && (forall i :: i in job.replicas <==> i in job.rows && job.rows[i].role == Replica)
  }

  /** `i` is a replica the election may have picked: its container was recorded and stays recorded. */
  ghost predicate Candidate(w: World, job: Job, i: InstanceId) {
    i in job.replicas && i in w.rows && i in job.rows && job.rows[i].cid.Some? && w.rows[i].cid.Some?
  }

  /** Candidates stay candidates until the election is over: nobody clears a replica's container. */
  ghost predicate ReplicasKept(w: World, job: Job) {
    forall i :: i in job.replicas && i in job.rows && job.rows[i].cid.Some? ==> Candidate(w, job, i)
  }

  ghost predicate Crowned(w: World, newP: InstanceId) {
    && newP in w.rows && w.rows[newP].role == Primary && w.rows[newP].cid.Some?
    && WritersAre(w, newP)
  }

  /** The bookkeeping of the re-cloning loop. */
  ghost predicate LoopOk(run: Rejoin, todo: seq<InstanceId>, members: set<InstanceId>) {
    && run.newP !in todo && Distinct(todo) && run.newP !in run.recloned
    && (forall i :: i in todo ==> i in members && i !in run.recloned)
    && (forall i :: i in run.unread ==> i in run.recloned)
    && (forall i :: i in run.reattached <==> i in run.recloned && i !in run.unread)
    && (run.unread == {} ==> run.reattached == run.recloned)
    && (run.degraded || run.recloned + todo == Survivors(run.job.replicas, run.newP))
  }

  ghost predicate RunOk(w: World, run: Rejoin, todo: seq<InstanceId>) {
    && Crowned(w, run.newP)
    && LoopOk(run, todo, w.rows.Keys)
    && (run.promoted <==> CanWrite(w, run.newP))
    && (forall i :: i in run.recloned ==> Holds(w, i, Standby))
    && RowsOwned(w, run.job.rows)
  }

  /** The cluster row names the new primary if that was saved, and else what it named before. */
  predicate PrimaryOk(w: World, run: Rejoin) {
    w.primary == if run.primarySaved then Some(run.newP) else run.was
  }

  ghost predicate StageOk(w: World, r: InstanceId, at: Stage) {
    match at
    case CreateContainer | MarkRunning | Reread => Holds(w, r, Standby)
    case NoteContainer(c) => Holds(w, r, Standby) && Owned(w, r, Some(c))
    case StartContainer(c) => Holds(w, r, Standby) && Owned(w, r, Some(c))
    case AwaitStreaming(c) => Holds(w, r, Standby) && Owned(w, r, Some(c))
    case CleanContainer(c) => Owned(w, r, Some(c))
    case _ => true
  }

  predicate Early(pc: Pc) {
    pc.Checking? || pc.Probing? || pc.Electing? || pc.Fencing?
  }

  predicate Fenced(pc: Pc) {
    pc.ClearFenced? || pc.Promote?
  }

  predicate Late(pc: Pc) {
    !pc.Idle? && !Early(pc) && !Fenced(pc) && !InWindow(pc)
  }

  /** The replica chosen so far. */
  function Chosen(pc: Pc): Option<InstanceId>
    requires Early(pc)
  {
    match pc
    case Electing(_, _, best, _) => best
    case Fencing(_, newP) => Some(newP)
    case _ => None
  }

  ghost predicate IdleOk(w: World) {
    SingleWriter(w) && (Supervised(w.status) ==> Named(w, w.rows))
  }

  ghost predicate EarlyOk(w: World, pc: Pc)
    requires Early(pc)
  {
    && JobOk(w, pc.job)
    && (Chosen(pc).Some? ==> Candidate(w, pc.job, Chosen(pc).value))
    && (pc.Checking? || pc.Probing? || pc.Electing? ==> ReplicasKept(w, pc.job))
    && (pc.Electing? ==> forall i :: i in pc.todo ==> i in pc.job.replicas)
  }

  ghost predicate FencedOk(w: World, pc: Pc)
    requires Fenced(pc)
  {
    SnapshotOk(w, pc.job) && Candidate(w, pc.job, pc.newP) && NoWriter(w)
  }

  ghost predicate WindowOk(w: World, pc: Pc)
    requires InWindow(pc)
  {
    && WritersAre(w, pc.newP)
    && (!pc.PromoteFailed? ==>
          && pc.newP in w.rows && w.rows[pc.newP].cid.Some? && w.rows[pc.newP].role == Replica
          && RowsOwned(w, pc.job.rows)
          && Distinct(pc.job.replicas) && forall i :: i in pc.job.replicas ==> i in w.rows)
    && (pc.Demote? ==> pc.job.oldP.Some? || NoPrimaryRow(w.rows))
    && (pc.Demote? && pc.job.oldP.Some? ==>
          forall i :: i in w.rows && w.rows[i].role == Primary ==> i == pc.job.oldP.value)
    && (pc.Crown? ==> NoPrimaryRow(w.rows))
    && (!pc.PromoteFailed? ==> (pc.took <==> CanWrite(w, pc.newP)))
  }

  ghost predicate NoPrimaryRow(rows: map<InstanceId, Row>) {
    forall i :: i in rows ==> rows[i].role == Replica
  }

  /** The replicas still to be re-cloned. */
  function Todo(pc: Pc): seq<InstanceId>
    requires Late(pc)
  {
    match pc
    case SavePrimary(_, todo) => todo
    case Recloning(_, todo, _) => todo
    case _ => []
  }

  ghost predicate LateOk(w: World, pc: Pc)
    requires Late(pc)
  {
    && RunOk(w, pc.run, Todo(pc)) && PrimaryOk(w, pc.run) && (pc.SavePrimary? ==> !pc.run.primarySaved)
    && (pc.Recloning? && pc.todo != [] ==> StageOk(w, pc.todo[0], pc.at))
    && (pc.SaveRouter? || (pc.Finish? && !pc.run.degraded) ==> w.router == Some(Pool(pc.run.newP, pc.run.reattached)))
  }

  ghost predicate PcOk(w: World, pc: Pc) {
    if pc.Idle? then IdleOk(w)
    else if Early(pc) then EarlyOk(w, pc)
    else if Fenced(pc) then FencedOk(w, pc)
    else if InWindow(pc) then WindowOk(w, pc)
    else LateOk(w, pc)
  }

  ghost predicate FoundOk(w: World, found: map<InstanceId, ContainerId>) {
    forall i :: i in found ==> Owned(w, i, Some(found[i]))
  }

  ghost predicate PassOk(w: World, rec: Pass) {
    match rec
    case NoPass => true
    case Listed(_) => true
    case Working(_, found, _) => FoundOk(w, found)
    case Inspected(_, found, _, _, _) => FoundOk(w, found)
  }

  ghost predicate Inv(s: State) {
    WorldOk(s.w) && PcOk(s.w, s.pc) && PassOk(s.w, s.rec)
  }

  lemma InvIsSafe(s: State)
    requires Inv(s)
    ensures SingleWriter(s.w) && OnePrimaryRow(s.w.rows)
  {
  }

  lemma ProvisionedOk(w: World, p: InstanceId)
    requires Provisioned(w, p)
    ensures WorldOk(w) && WritersAre(w, p) && Named(w, w.rows)
  {
  }

  lemma InitialOk(s: State)
    requires Initial(s)
    ensures Inv(s)
  {
    var p :| Provisioned(s.w, p);
    ProvisionedOk(s.w, p);
  }

  // ---------- every step keeps it ----------

  /** What happens to the world outside the controller: containers stop, start and vanish, a
      promotion under way completes, and the reconciler rewrites statuses and adopts containers. */
  ghost predicate Drift(w: World, w': World) {
    && w'.order == w.order && w'.born == w.born
    && w'.status == w.status && w'.primary == w.primary && w'.router == w.router
    && (forall i :: i in w'.containers ==> i in w.containers && w'.containers[i].id == w.containers[i].id)
    && w'.volumes.Keys == w.volumes.Keys
    && (forall i :: i in w.volumes ==>
          w'.volumes[i] == w.volumes[i] || (w.volumes[i] == Promoting && w'.volumes[i] == Writable))
    && w'.rows.Keys == w.rows.Keys
    && (forall i :: i in w.rows ==>
          && w'.rows[i].role == w.rows[i].role
          && (w'.rows[i].cid == w.rows[i].cid || (w'.rows[i].cid.Some? && Owned(w, i, w'.rows[i].cid))))
  }

  lemma DriftWriters(w: World, w': World)
    requires Drift(w, w')
    ensures forall i :: Writer(w', i) ==> Writer(w, i)
    ensures forall i :: Holds(w, i, Standby) ==> Holds(w', i, Standby)
    ensures forall i :: CanWrite(w', i) <==> CanWrite(w, i)
  {
  }

  lemma DriftWorld(w: World, w': World)
    requires WorldOk(w) && Drift(w, w')
    ensures WorldOk(w')
  {
  }

  lemma DriftSnapshot(w: World, w': World, job: Job)
    requires SnapshotOk(w, job) && Drift(w, w')
    ensures SnapshotOk(w', job)
    ensures forall i :: Candidate(w, job, i) ==> Candidate(w', job, i)
  {
  }

  lemma DriftNamed(w: World, w': World, rows: map<InstanceId, Row>)
    requires Drift(w, w')
    ensures Named(w, rows) ==> Named(w', rows)
    ensures Named(w, w.rows) ==> Named(w', w'.rows)
  {
    DriftWriters(w, w');
  }

  lemma DriftJob(w: World, w': World, job: Job)
    requires JobOk(w, job) && Drift(w, w')
    ensures JobOk(w', job)
    ensures forall i :: Candidate(w, job, i) ==> Candidate(w', job, i)
  {
    DriftSnapshot(w, w', job);
    DriftNamed(w, w', job.rows);
  }

  lemma DriftEarly(w: World, w': World, pc: Pc)
    requires Early(pc) && EarlyOk(w, pc) && Drift(w, w')
    ensures EarlyOk(w', pc)
  {
    DriftJob(w, w', pc.job);
  }

  lemma DriftRun(w: World, w': World, run: Rejoin, todo: seq<InstanceId>)
    requires WorldOk(w) && RunOk(w, run, todo) && Drift(w, w')
    ensures RunOk(w', run, todo)
  {
    DriftWriters(w, w');
  }

  lemma DriftStage(w: World, w': World, r: InstanceId, at: Stage)
    requires StageOk(w, r, at) && Drift(w, w')
    ensures StageOk(w', r, at)
  {
    DriftWriters(w, w');
  }

  lemma DriftLate(w: World, w': World, pc: Pc)
    requires WorldOk(w) && Late(pc) && LateOk(w, pc) && Drift(w, w')
    ensures LateOk(w', pc)
  {
    DriftRun(w, w', pc.run, Todo(pc));
    if pc.Recloning? && pc.todo != [] {
      DriftStage(w, w', pc.todo[0], pc.at);
    }
  }

  lemma DriftFenced(w: World, w': World, pc: Pc)
    requires Fenced(pc) && FencedOk(w, pc) && Drift(w, w')
    ensures FencedOk(w', pc)
  {
    DriftWriters(w, w');
    DriftSnapshot(w, w', pc.job);
  }

  lemma DriftOwned(w: World, w': World, rows: map<InstanceId, Row>)
    requires RowsOwned(w, rows) && w.born <= w'.born
    ensures RowsOwned(w', rows)
  {
  }

  lemma DriftWindow(w: World, w': World, pc: Pc)
    requires InWindow(pc) && WindowOk(w, pc) && Drift(w, w')
    ensures WindowOk(w', pc)
  {
    DriftWriters(w, w');
    if !pc.PromoteFailed? {
      DriftOwned(w, w', pc.job.rows);
    }
  }

  lemma DriftIdle(w: World, w': World)
    requires WorldOk(w) && IdleOk(w) && Drift(w, w')
    ensures IdleOk(w')
  {
    DriftWriters(w, w');
  }

  lemma DriftKeeps(w: World, w': World, pc: Pc)
    requires WorldOk(w) && PcOk(w, pc) && Drift(w, w')
    ensures WorldOk(w') && PcOk(w', pc)
  {
    DriftWorld(w, w');
    if pc.Idle? {
      DriftIdle(w, w');
    } else if Early(pc) {
      DriftEarly(w, w', pc);
    } else if Fenced(pc) {
      DriftFenced(w, w', pc);
    } else if InWindow(pc) {
      DriftWindow(w, w', pc);
    } else {
      DriftLate(w, w', pc);
    }
  }

  lemma EnvironmentDrifts(s: State, e: Event)
    requires WorldOk(s.w) && !e.Controller? && !e.Reconciler?
    ensures Drift(s.w, Step(s, e).w)
  {
    match e
    case Crash(i) => RunningDrifts(s.w, i, false);
    case Revive(i) => RunningDrifts(s.w, i, true);
    case _ =>
  }

  lemma RunningDrifts(w: World, i: InstanceId, running: bool)
    ensures Drift(w, SetRunning(w, i, running))
  {
  }

  lemma StopKeeps(s: State)
    requires Inv(s) && !InWindow(s.pc)
    ensures Inv(Step(s, ControlPlaneStop))
  {
    InvIsSafe(s);
  }

  lemma DriftInv(s: State, w': World)
    requires Inv(s) && Drift(s.w, w')
    ensures Inv(s.(w := w'))
  {
    DriftKeeps(s.w, w', s.pc);
  }

  lemma EnvironmentKeeps(s: State, e: Event)
    requires Inv(s) && !e.Controller? && !e.Reconciler? && !e.ControlPlaneStop?
    ensures Inv(Step(s, e))
  {
    var w' := Step(s, e).w;
    EnvironmentDrifts(s, e);
    DriftInv(s, w');
    assert Step(s, e) == s.(w := w');
  }

  lemma StatusDrifts(w: World, i: InstanceId, st: Status, write: bool)
    ensures Drift(w, w) && Drift(w, SetStatus(w, i, st, write))
  {
  }

  lemma RuntimeDrifts(w: World, i: InstanceId, c: ContainerId, write: bool)
    requires Owned(w, i, Some(c))
    ensures Drift(w, SetRuntime(w, i, Some(c), write))
  {
  }

  lemma ReconcilerDrifts(w: World, rec: Pass, ch: Choice)
    requires PassOk(w, rec)
    ensures Drift(w, ReconcilerStep(w, rec, ch).0)
  {
    var i := if (rec.Working? || rec.Inspected?) && rec.todo != [] then rec.todo[0] else 0;
    if rec.Working? {
      StatusDrifts(w, i, Errored, ch.write);
    } else if rec.Inspected? && i in rec.found {
      RuntimeDrifts(w, i, rec.found[i], ch.write);
      StatusDrifts(w, i, if rec.running then Running else Stopped, ch.write);
    } else {
      StatusDrifts(w, i, Errored, false);
    }
  }

  lemma PassKept(w: World, rec: Pass, ch: Choice)
    requires WorldOk(w) && PassOk(w, rec)
    ensures PassOk(w, ReconcilerStep(w, rec, ch).1)
  {
  }

  lemma ReconcilerKeeps(s: State, ch: Choice)
    requires Inv(s)
    ensures Inv(Step(s, Reconciler(ch)))
  {
    var s' := Step(s, Reconciler(ch));
    ReconcilerDrifts(s.w, s.rec, ch);
    PassKept(s.w, s.rec, ch);
    DriftKeeps(s.w, s'.w, s.pc);
  }

  // ---------- the controller's steps ----------

  /** Writing the cluster status alone can only end supervision. */
  lemma GiveUp(w: World, write: bool)
    requires WorldOk(w) && Named(w, w.rows)
    ensures WorldOk(SetClusterStatus(w, ClusterError, write)) && IdleOk(SetClusterStatus(w, ClusterError, write))
  {
    var w' := SetClusterStatus(w, ClusterError, write);
    assert Named(w', w'.rows);
  }

  ghost predicate Good(w: World, r: (World, Pc)) {
    WorldOk(r.0) && PcOk(r.0, r.1) && w.born <= r.0.born
  }

  lemma BeginKeeps(w: World, ch: Choice)
    requires WorldOk(w) && IdleOk(w)
    ensures var pc' := BeginStep(w, ch).1;
            BeginStep(w, ch).0 == w && (pc'.Idle? || Early(pc')) && (if pc'.Idle? then IdleOk(w) else EarlyOk(w, pc'))
  {
  }

  lemma CheckKeeps(w: World, pc: Pc, ch: Choice)
    requires WorldOk(w) && pc.Checking? && EarlyOk(w, pc)
    ensures var pc' := CheckStep(w, pc.job, ch).1;
            CheckStep(w, pc.job, ch).0 == w && (pc'.Idle? || Early(pc'))
                && (if pc'.Idle? then IdleOk(w) else EarlyOk(w, pc'))
  {
    GiveUp(w, false);
  }

  lemma ProbeKeeps(w: World, pc: Pc, ch: Choice)
    requires WorldOk(w) && pc.Probing? && EarlyOk(w, pc)
    ensures var (w', pc') := ProbeStep(w, pc.job, pc.todo, pc.up, ch);
            && WorldOk(w') && w'.born == w.born && (pc'.Idle? || Early(pc'))
            && (if pc'.Idle? then IdleOk(w') else EarlyOk(w', pc'))
  {
    if pc.todo == [] {
      GiveUp(w, ch.write);
    }
  }

  lemma ElectionMoves(w: World, pc: Pc, pc': Pc)
    requires pc.Electing? && EarlyOk(w, pc) && pc'.Electing? && pc'.job == pc.job
    requires pc'.best.Some? ==> Candidate(w, pc.job, pc'.best.value)
    requires forall i :: i in pc'.todo ==> i in pc.todo
    ensures EarlyOk(w, pc')
  {
  }

  lemma ElectOne(w: World, pc: Pc, ch: Choice)
    requires WorldOk(w) && pc.Electing? && EarlyOk(w, pc) && pc.todo != []
    ensures var (w', pc') := ElectStep(w, pc.job, pc.todo, pc.best, pc.bestLsn, ch);
            w' == w && pc'.Electing? && EarlyOk(w, pc')
  {
    var pc' := ElectStep(w, pc.job, pc.todo, pc.best, pc.bestLsn, ch).1;
    assert pc.todo[0] in pc.job.replicas;
    ElectionMoves(w, pc, pc');
  }

  lemma ElectKeeps(w: World, pc: Pc, ch: Choice)
    requires WorldOk(w) && pc.Electing? && EarlyOk(w, pc)
    ensures var (w', pc') := ElectStep(w, pc.job, pc.todo, pc.best, pc.bestLsn, ch);
            && WorldOk(w') && w'.born == w.born && (pc'.Idle? || Early(pc'))
            && (if pc'.Idle? then IdleOk(w') else EarlyOk(w', pc'))
  {
    if pc.todo != [] {
      ElectOne(w, pc, ch);
    } else if pc.best.None? {
      GiveUp(w, ch.write);
    }
  }

  /** The heart of the argument: a fence that reports success has removed the only writer. */
  lemma FenceRemovesWriter(w: World, job: Job, newP: InstanceId, ch: Choice)
    requires WorldOk(w) && JobOk(w, job)
    ensures var (w', pc') := FenceStep(w, job, newP, ch); !pc'.Idle? ==> NoWriter(w') && Drift(w, w')
  {
  }

  lemma RemoveDrifts(w: World, c: ContainerId)
    ensures Drift(w, Remove(w, c))
  {
  }

  lemma FenceGivesUp(w: World, job: Job, c: ContainerId, ch: Choice)
    requires WorldOk(w) && JobOk(w, job)
    ensures var w' := SetClusterStatus(if ch.done then Remove(w, c) else w, ClusterError, ch.write);
            WorldOk(w') && IdleOk(w') && w'.born == w.born
  {
    var w1 := if ch.done then Remove(w, c) else w;
    RemoveDrifts(w, c);
    StatusDrifts(w, 0, Errored, false);
    DriftWorld(w, w1);
    DriftJob(w, w1, job);
    GiveUp(w1, ch.write);
  }

  lemma FenceKeeps(w: World, pc: Pc, ch: Choice)
    requires WorldOk(w) && pc.Fencing? && EarlyOk(w, pc)
    ensures var (w', pc') := FenceStep(w, pc.job, pc.newP, ch);
            && WorldOk(w') && w'.born == w.born && (pc'.Idle? || Fenced(pc'))
            && (if pc'.Idle? then IdleOk(w') else FencedOk(w', pc'))
  {
    var (w', pc') := FenceStep(w, pc.job, pc.newP, ch);
    FenceRemovesWriter(w, pc.job, pc.newP, ch);
    if pc'.Idle? {
      FenceGivesUp(w, pc.job, pc.job.rows[pc.job.oldP.value].cid.value, ch);
    } else {
      DriftWorld(w, w');
      DriftJob(w, w', pc.job);
    }
  }

  /** Row writes neither make writers nor break the world, as long as one primary row remains. */
  lemma RowWrite(w: World, i: InstanceId, row: Row, write: bool)
    requires WorldOk(w) && i in w.rows && Owned(w, i, row.cid)
    requires row.role == Primary ==> forall j :: j in w.rows && j != i ==> w.rows[j].role != Primary
    ensures WorldOk(SetRow(w, i, row, write))
    ensures forall j :: Writer(SetRow(w, i, row, write), j) <==> Writer(w, j)
  {
    var w' := SetRow(w, i, row, write);
    assert w'.rows.Keys == w.rows.Keys;
  }

  lemma ClearSnapshot(w: World, job: Job, p: InstanceId, newP: InstanceId, write: bool)
    requires SnapshotOk(w, job) && p in w.rows && job.oldP == Some(p) && Candidate(w, job, newP)
    ensures SnapshotOk(SetRuntime(w, p, None, write), job) && Candidate(SetRuntime(w, p, None, write), job, newP)
  {
  }

  lemma ClearKeeps(w: World, pc: Pc, ch: Choice)
    requires WorldOk(w) && pc.ClearFenced? && FencedOk(w, pc)
    ensures var (w', pc') := ClearStep(w, pc.job, pc.newP, ch);
            WorldOk(w') && FencedOk(w', pc') && w'.born == w.born
  {
    if pc.job.oldP.Some? {
      var p := pc.job.oldP.value;
      RowWrite(w, p, w.rows[p].(cid := None), ch.write);
      ClearSnapshot(w, pc.job, p, pc.newP, ch.write);
    }
  }

  /** Before the promotion nobody could write, so afterwards nobody but the new primary can. */
  lemma PromotionWriters(w: World, job: Job, newP: InstanceId, ch: Choice)
    requires WorldOk(w) && NoWriter(w)
    ensures WorldOk(PromoteStep(w, job, newP, ch).0) && WritersAre(PromoteStep(w, job, newP, ch).0, newP)
    ensures PromoteStep(w, job, newP, ch).0.(volumes := w.volumes) == w
  {
    var w' := PromoteStep(w, job, newP, ch).0;
    assert forall i :: Writer(w', i) ==> Writer(w, i) || i == newP;
    assert w'.volumes.Keys == w.volumes.Keys;
  }

  lemma PromoteKeeps(w: World, pc: Pc, ch: Choice)
    requires WorldOk(w) && pc.Promote? && FencedOk(w, pc)
    ensures var (w', pc') := PromoteStep(w, pc.job, pc.newP, ch);
            WorldOk(w') && InWindow(pc') && WindowOk(w', pc') && w'.born == w.born
  {
    PromotionWriters(w, pc.job, pc.newP, ch);
    if pc.newP in pc.job.rows && Answers(w, pc.job.rows[pc.newP], true) {
      assert pc.newP in w.containers && !Writer(w, pc.newP);
    }
  }

  lemma FailedKeeps(w: World, pc: Pc, ch: Choice)
    requires WorldOk(w) && pc.PromoteFailed? && WindowOk(w, pc) && ch.write
    ensures var w' := SetClusterStatus(w, ClusterError, ch.write); WorldOk(w') && IdleOk(w') && w'.born == w.born
  {
    var w' := SetClusterStatus(w, ClusterError, ch.write);
    assert forall i :: Writer(w', i) ==> Writer(w, i);
  }

  lemma DemoteRows(w: World, p: InstanceId, ok: bool)
    requires WorldOk(w) && p in w.rows && (forall i :: i in w.rows && w.rows[i].role == Primary ==> i == p)
    ensures var w' := SetRole(SetStatus(w, p, Errored, ok), p, Replica, true);
            && WorldOk(w') && NoPrimaryRow(w'.rows) && w' == w.(rows := w'.rows) && w'.rows.Keys == w.rows.Keys
            && forall i :: i in w.rows ==> w'.rows[i].cid == w.rows[i].cid
  {
    var row := w.rows[p].(role := Replica, status := if ok then Errored else w.rows[p].status);
    DemotionIs(w, p, ok, row);
    RowWrite(w, p, row, true);
  }

  lemma DemotionIs(w: World, p: InstanceId, ok: bool, row: Row)
    requires p in w.rows && row == w.rows[p].(role := Replica, status := if ok then Errored else w.rows[p].status)
    ensures SetRole(SetStatus(w, p, Errored, ok), p, Replica, true) == SetRow(w, p, row, true)
  {
    TwoWrites(w, p, w.rows[p].(status := Errored), row, ok);
  }

  /** A second write of a row replaces the first. */
  lemma TwoWrites(w: World, p: InstanceId, row: Row, row': Row, write: bool)
    requires p in w.rows
    ensures SetRow(SetRow(w, p, row, write), p, row', true) == SetRow(w, p, row', true)
  {
    assert w.rows[p := row][p := row'] == w.rows[p := row'];
  }

  lemma RowsOnly(w: World, w': World, p: InstanceId)
    requires w' == w.(rows := w'.rows) && WritersAre(w, p)
    ensures WritersAre(w', p) && (CanWrite(w', p) <==> CanWrite(w, p))
  {
    assert forall i :: Writer(w', i) ==> Writer(w, i);
  }

  lemma DemoteKeeps(w: World, pc: Pc, ch: Choice)
    requires WorldOk(w) && pc.Demote? && WindowOk(w, pc) && ch.write
    ensures var (w', pc') := DemoteStep(w, pc.job, pc.newP, pc.took, ch);
            WorldOk(w') && WindowOk(w', pc') && w'.born == w.born
  {
    if pc.job.oldP.Some? && pc.job.oldP.value in w.rows {
      DemoteRows(w, pc.job.oldP.value, ch.ok);
      var w' := DemoteStep(w, pc.job, pc.newP, pc.took, ch).0;
      RowsOnly(w, w', pc.newP);
    }
  }

  lemma CrownRows(w: World, p: InstanceId, ok: bool)
    requires WorldOk(w) && p in w.rows && NoPrimaryRow(w.rows)
    ensures var w' := SetStatus(SetRole(w, p, Primary, true), p, Running, ok);
            && WorldOk(w') && w' == w.(rows := w'.rows) && w'.rows.Keys == w.rows.Keys
            && w'.rows[p].role == Primary && w'.rows[p].cid == w.rows[p].cid
  {
    var row := w.rows[p].(role := Primary);
    TwoWrites(w, p, row, row.(status := Running), true);
    assert SetRole(w, p, Primary, true) == SetRow(w, p, row, true);
    RowWrite(w, p, if ok then row.(status := Running) else row, true);
  }

  /** The unique index never blocks the new primary: by now no row has role primary. */
  lemma CrownKeeps(w: World, pc: Pc, ch: Choice)
    requires WorldOk(w) && pc.Crown? && WindowOk(w, pc) && ch.write
    ensures var (w', pc') := CrownStep(w, pc.job, pc.newP, pc.took, ch);
            WorldOk(w') && LateOk(w', pc') && w'.born == w.born
  {
    CrownRows(w, pc.newP, ch.ok);
    var (w', pc') := CrownStep(w, pc.job, pc.newP, pc.took, ch);
    RowsOnly(w, w', pc.newP);
    CrownLoop(pc'.run, pc'.todo, w'.rows.Keys);
    DriftOwned(w, w', pc.job.rows);
    SaveIsLate(w', pc'.run, pc'.todo);
  }

  lemma SaveIsLate(w: World, run: Rejoin, todo: seq<InstanceId>)
    requires RunOk(w, run, todo) && !run.primarySaved && run.was == w.primary
    ensures LateOk(w, SavePrimary(run, todo))
  {
  }

  lemma CrownLoop(run: Rejoin, todo: seq<InstanceId>, members: set<InstanceId>)
    requires run.recloned == [] && run.unread == {} && run.reattached == []
    requires todo == Survivors(run.job.replicas, run.newP) && Distinct(run.job.replicas)
    requires forall i :: i in run.job.replicas ==> i in members
    ensures LoopOk(run, todo, members)
  {
    assert [] + todo == todo;
  }

  lemma IdleIsGood(w: World, r: (World, Pc))
    requires WorldOk(r.0) && r.1.Idle? && IdleOk(r.0) && r.0.born == w.born
    ensures Good(w, r)
  {
  }

  lemma EarlyIsGood(w: World, r: (World, Pc))
    requires WorldOk(r.0) && Early(r.1) && EarlyOk(r.0, r.1) && r.0.born == w.born
    ensures Good(w, r)
  {
  }

  lemma FencedIsGood(w: World, r: (World, Pc))
    requires WorldOk(r.0) && Fenced(r.1) && FencedOk(r.0, r.1) && r.0.born == w.born
    ensures Good(w, r)
  {
  }

  lemma WindowIsGood(w: World, r: (World, Pc))
    requires WorldOk(r.0) && InWindow(r.1) && WindowOk(r.0, r.1) && r.0.born == w.born
    ensures Good(w, r)
  {
  }

  lemma LateIsGood(w: World, r: (World, Pc))
    requires WorldOk(r.0) && Late(r.1) && LateOk(r.0, r.1) && w.born <= r.0.born
    ensures Good(w, r)
  {
  }

  lemma EarlyKeeps(w: World, pc: Pc, ch: Choice)
    requires WorldOk(w) && Early(pc) && !pc.Fencing? && EarlyOk(w, pc)
    ensures Good(w, ControllerStep(w, pc, ch))
  {
    if pc.Checking? {
      CheckKeeps(w, pc, ch);
    } else if pc.Probing? {
      ProbeKeeps(w, pc, ch);
    } else {
      ElectKeeps(w, pc, ch);
    }
    var r := ControllerStep(w, pc, ch);
    if r.1.Idle? { IdleIsGood(w, r); } else { EarlyIsGood(w, r); }
  }

  lemma FencingKeeps(w: World, pc: Pc, ch: Choice)
    requires WorldOk(w) && pc.Fencing? && EarlyOk(w, pc)
    ensures Good(w, ControllerStep(w, pc, ch))
  {
    FenceKeeps(w, pc, ch);
    var r := FenceStep(w, pc.job, pc.newP, ch);
    if r.1.Idle? { IdleIsGood(w, r); } else { FencedIsGood(w, r); }
  }

  lemma IdleKeeps(w: World, ch: Choice)
    requires WorldOk(w) && IdleOk(w)
    ensures Good(w, ControllerStep(w, Idle, ch))
  {
    BeginKeeps(w, ch);
    var r := BeginStep(w, ch);
    if r.1.Idle? { IdleIsGood(w, r); } else { EarlyIsGood(w, r); }
  }

  lemma FencedKeeps(w: World, pc: Pc, ch: Choice)
    requires WorldOk(w) && Fenced(pc) && FencedOk(w, pc)
    ensures Good(w, ControllerStep(w, pc, ch))
  {
    if pc.ClearFenced? {
      ClearKeeps(w, pc, ch);
      FencedIsGood(w, ClearStep(w, pc.job, pc.newP, ch));
    } else {
      PromoteKeeps(w, pc, ch);
      WindowIsGood(w, PromoteStep(w, pc.job, pc.newP, ch));
    }
  }

  lemma DemotedKeeps(w: World, pc: Pc, ch: Choice)
    requires WorldOk(w) && pc.Demote? && WindowOk(w, pc) && ch.write
    ensures Good(w, ControllerStep(w, pc, ch))
  {
    DemoteKeeps(w, pc, ch);
    WindowIsGood(w, DemoteStep(w, pc.job, pc.newP, pc.took, ch));
  }

  lemma CrownedKeeps(w: World, pc: Pc, ch: Choice)
    requires WorldOk(w) && pc.Crown? && WindowOk(w, pc) && ch.write
    ensures Good(w, ControllerStep(w, pc, ch))
  {
    CrownKeeps(w, pc, ch);
    LateIsGood(w, CrownStep(w, pc.job, pc.newP, pc.took, ch));
  }

  lemma WindowKeeps(w: World, pc: Pc, ch: Choice)
    requires WorldOk(w) && InWindow(pc) && WindowOk(w, pc) && ch.write
    ensures Good(w, ControllerStep(w, pc, ch))
  {
    if pc.PromoteFailed? {
      FailedKeeps(w, pc, ch);
      IdleIsGood(w, ControllerStep(w, pc, ch));
    } else if pc.Demote? {
      DemotedKeeps(w, pc, ch);
    } else {
      CrownedKeeps(w, pc, ch);
    }
  }

  // ---------- re-cloning the survivors ----------

  /** A step that works on replica `r` alone and leaves it unable to accept writes. */
  ghost predicate Touches(w: World, w': World, r: InstanceId) {
    && w'.order == w.order && w'.status == w.status && w'.primary == w.primary && w'.router == w.router
    && w.born <= w'.born
    && w'.rows.Keys == w.rows.Keys && w'.volumes.Keys == w.volumes.Keys
    && (forall i :: i != r && i in w.rows ==> w'.rows[i] == w.rows[i])
    && (forall i :: i != r && i in w.volumes ==> w'.volumes[i] == w.volumes[i])
    && (forall i :: i != r ==> (i in w'.containers <==> i in w.containers))
    && (forall i :: i != r && i in w.containers ==> w'.containers[i] == w.containers[i])
    && r in w'.rows && w'.rows[r].role == w.rows[r].role && Owned(w', r, w'.rows[r].cid)
    && (r in w'.containers ==> Owned(w', r, Some(w'.containers[r].id)))
    && !Writer(w', r)
  }

  lemma TouchRows(w: World, w': World, r: InstanceId)
    requires RowsOwned(w, w.rows) && Touches(w, w', r)
    ensures RowsOwned(w', w'.rows)
  {
  }

  lemma TouchContainers(w: World, w': World, r: InstanceId)
    requires WorldOk(w) && Touches(w, w', r)
    ensures w'.containers.Keys <= w'.rows.Keys
    ensures forall i :: i in w'.containers ==> Owned(w', i, Some(w'.containers[i].id))
  {
  }

  lemma TouchRoles(w: World, w': World, r: InstanceId)
    requires OnePrimaryRow(w.rows) && Touches(w, w', r)
    ensures OnePrimaryRow(w'.rows)
  {
    assert forall i :: i in w.rows ==> w'.rows[i].role == w.rows[i].role;
  }

  lemma TouchWorld(w: World, w': World, r: InstanceId)
    requires WorldOk(w) && Touches(w, w', r)
    ensures WorldOk(w')
  {
    TouchRows(w, w', r);
    TouchContainers(w, w', r);
    TouchRoles(w, w', r);
  }

  lemma TouchCrowned(w: World, w': World, r: InstanceId, newP: InstanceId)
    requires Crowned(w, newP) && Touches(w, w', r) && r != newP
    ensures Crowned(w', newP) && (CanWrite(w', newP) <==> CanWrite(w, newP))
  {
    assert forall i :: Writer(w', i) ==> Writer(w, i);
  }

  lemma TouchRun(w: World, w': World, r: InstanceId, run: Rejoin, todo: seq<InstanceId>)
    requires RunOk(w, run, todo) && Touches(w, w', r) && r != run.newP && r !in run.recloned
    ensures RunOk(w', run, todo)
  {
    TouchCrowned(w, w', r, run.newP);
    DriftOwned(w, w', run.job.rows);
  }

  lemma NothingTouches(w: World, r: InstanceId)
    requires WorldOk(w) && r in w.rows && !Writer(w, r)
    ensures Touches(w, w, r)
  {
  }

  lemma RowTouches(w: World, r: InstanceId, row: Row, write: bool)
    requires WorldOk(w) && r in w.rows && !Writer(w, r) && Owned(w, r, row.cid) && row.role == w.rows[r].role
    ensures Touches(w, SetRow(w, r, row, write), r)
  {
    NothingTouches(w, r);
  }

  lemma StatusTouches(w: World, r: InstanceId, st: Status, write: bool)
    requires WorldOk(w) && r in w.rows && !Writer(w, r)
    ensures Touches(w, SetStatus(w, r, st, write), r)
  {
    RowTouches(w, r, w.rows[r].(status := st), write);
  }

  lemma RuntimeTouches(w: World, r: InstanceId, cid: Option<ContainerId>, write: bool)
    requires WorldOk(w) && r in w.rows && !Writer(w, r) && Owned(w, r, cid)
    ensures Touches(w, SetRuntime(w, r, cid, write), r)
  {
    RowTouches(w, r, w.rows[r].(cid := cid), write);
  }

  lemma RemovalTouches(w: World, r: InstanceId, c: ContainerId)
    requires WorldOk(w) && r in w.rows && !Writer(w, r) && Owned(w, r, Some(c))
    ensures Touches(w, Remove(w, c), r)
  {
  }

  lemma VolumeTouches(w: World, r: InstanceId, v: Volume)
    requires WorldOk(w) && r in w.rows && v != Promoting && v != Writable
    ensures Touches(w, SetVolume(w, r, v), r)
  {
  }

  predicate RowStage(at: Stage) {
    || at.MarkProvisioning? || at.ClearRuntime? || at.PreparePrimary? || at.NoteContainer?
    || at.AwaitStreaming? || at.MarkRunning? || at.MarkError? || at.Reread?
  }

  lemma RowStageTouches(w: World, run: Rejoin, todo: seq<InstanceId>, at: Stage, ch: Choice)
    requires WorldOk(w) && todo != [] && todo[0] in w.rows && !Writer(w, todo[0]) && StageOk(w, todo[0], at)
    requires RowStage(at)
    ensures Touches(w, RecloneStep(w, run, todo, at, ch).0, todo[0])
  {
    var r := todo[0];
    match at
    case MarkProvisioning => StatusTouches(w, r, Provisioning, ch.write);
    case ClearRuntime => RuntimeTouches(w, r, None, ch.write);
    case PreparePrimary => StatusTouches(w, r, Provisioning, ch.write);
    case NoteContainer(c) => RuntimeTouches(w, r, Some(c), ch.write);
    case AwaitStreaming(c) => RuntimeTouches(w, r, Some(c), ch.write);
    case MarkRunning => StatusTouches(w, r, Running, true); NothingTouches(w, r);
    case MarkError => StatusTouches(w, r, Errored, ch.write);
    case Reread => NothingTouches(w, r);
  }

  lemma ResourceStageTouches(w: World, run: Rejoin, todo: seq<InstanceId>, at: Stage, ch: Choice)
    requires WorldOk(w) && todo != [] && todo[0] in w.rows && !Writer(w, todo[0]) && StageOk(w, todo[0], at)
    requires !RowStage(at) && RowsOwned(w, run.job.rows)
    ensures Touches(w, RecloneStep(w, run, todo, at, ch).0, todo[0])
  {
    var r := todo[0];
    NothingTouches(w, r);
    match at
    case RemoveContainer =>
      if r in run.job.rows && run.job.rows[r].cid.Some? { RemovalTouches(w, r, run.job.rows[r].cid.value); }
    case CreateContainer => if r !in w.containers { CreateTouches(w, r); }
    case StartContainer(c) => if Exists(w, c) { StartTouches(w, r, c); }
    case CleanContainer(c) => RemovalTouches(w, r, c);
    case _ => VolumeStageTouches(w, run, todo, at, ch);
  }

  lemma VolumeStageTouches(w: World, run: Rejoin, todo: seq<InstanceId>, at: Stage, ch: Choice)
    requires WorldOk(w) && todo != [] && todo[0] in w.rows && !Writer(w, todo[0])
    requires at.DropVolume? || at.CreateVolume? || at.BaseBackup? || at.CleanVolume?
    ensures Touches(w, RecloneStep(w, run, todo, at, ch).0, todo[0])
  {
    var v := VolumeStageWrites(w, run, todo, at, ch);
    NothingTouches(w, todo[0]);
    VolumeTouches(w, todo[0], v);
  }

  lemma VolumeStageWrites(w: World, run: Rejoin, todo: seq<InstanceId>, at: Stage, ch: Choice) returns (v: Volume)
    requires todo != [] && (at.DropVolume? || at.CreateVolume? || at.BaseBackup? || at.CleanVolume?)
    ensures v != Promoting && v != Writable
    ensures var w' := RecloneStep(w, run, todo, at, ch).0; w' == w || w' == SetVolume(w, todo[0], v)
  {
    v := if at.CreateVolume? then Empty else if !at.BaseBackup? then Absent
         else if ch.ok then Standby else if ch.done then Torn else Empty;
  }

  /** The new container starts on a standby volume, whatever the replica was before. */
  lemma CreateTouches(w: World, r: InstanceId)
    requires WorldOk(w) && r in w.rows && Holds(w, r, Standby) && r !in w.containers
    ensures Touches(w, w.(born := w.born + [r], containers := w.containers[r := Container(|w.born|, false)]), r)
  {
  }

  lemma StartTouches(w: World, r: InstanceId, c: ContainerId)
    requires WorldOk(w) && r in w.rows && !Writer(w, r) && Owned(w, r, Some(c)) && Exists(w, c)
    ensures Touches(w, SetRunning(w, w.born[c], true), r)
  {
  }

  lemma StageTouches(w: World, run: Rejoin, todo: seq<InstanceId>, at: Stage, ch: Choice)
    requires WorldOk(w) && RunOk(w, run, todo) && todo != [] && StageOk(w, todo[0], at)
    ensures Touches(w, RecloneStep(w, run, todo, at, ch).0, todo[0])
  {
    if RowStage(at) {
      RowStageTouches(w, run, todo, at, ch);
    } else {
      ResourceStageTouches(w, run, todo, at, ch);
    }
  }

  predicate LastStage(at: Stage) {
    at.MarkError? || at.Reread?
  }

  /** Within one replica the loop variables stay put and the next stage finds what it needs. */
  lemma StageAdvances(w: World, run: Rejoin, todo: seq<InstanceId>, at: Stage, ch: Choice)
    requires WorldOk(w) && todo != [] && todo[0] in w.rows && StageOk(w, todo[0], at) && !LastStage(at)
    ensures var (w', pc') := RecloneStep(w, run, todo, at, ch);
            pc'.Recloning? && pc'.run == run && pc'.todo == todo && StageOk(w', todo[0], pc'.at)
  {
    if RowStage(at) {
      RowStageAdvances(w, run, todo, at, ch);
    } else {
      ResourceStageAdvances(w, run, todo, at, ch);
    }
  }

  lemma RowStageAdvances(w: World, run: Rejoin, todo: seq<InstanceId>, at: Stage, ch: Choice)
    requires todo != [] && todo[0] in w.rows && StageOk(w, todo[0], at) && !LastStage(at) && RowStage(at)
    ensures var (w', pc') := RecloneStep(w, run, todo, at, ch);
            pc'.Recloning? && pc'.run == run && pc'.todo == todo && StageOk(w', todo[0], pc'.at)
  {
  }

  lemma ResourceStageAdvances(w: World, run: Rejoin, todo: seq<InstanceId>, at: Stage, ch: Choice)
    requires WorldOk(w) && todo != [] && todo[0] in w.rows && StageOk(w, todo[0], at) && !RowStage(at)
    ensures var (w', pc') := RecloneStep(w, run, todo, at, ch);
            pc'.Recloning? && pc'.run == run && pc'.todo == todo && StageOk(w', todo[0], pc'.at)
  {
  }

  /** Moving on to the next replica. */
  lemma LoopAdvances(run: Rejoin, todo: seq<InstanceId>, members: set<InstanceId>, run': Rejoin)
    requires LoopOk(run, todo, members) && todo != []
    requires run' == run.(degraded := true)
             || run' == run.(recloned := run.recloned + [todo[0]], reattached := run.reattached + [todo[0]])
             || run' == run.(recloned := run.recloned + [todo[0]], unread := run.unread + {todo[0]})
    ensures LoopOk(run', todo[1..], members)
  {
    var r, rest := todo[0], todo[1..];
    assert todo == [r] + rest;
    assert run.recloned + todo == run.recloned + [r] + rest;
    assert forall i :: i in rest ==> i in todo && i != r;
  }

  lemma LastStageRun(w: World, run: Rejoin, todo: seq<InstanceId>, at: Stage, ch: Choice)
    requires todo != [] && LastStage(at) && LoopOk(run, todo, w.rows.Keys)
    ensures var pc' := RecloneStep(w, run, todo, at, ch).1;
            && pc'.Recloning? && pc'.todo == todo[1..] && pc'.at == MarkProvisioning && pc'.run.job == run.job
            && pc'.run.newP == run.newP && pc'.run.promoted == run.promoted && LoopOk(pc'.run, todo[1..], w.rows.Keys)
            && (pc'.run.recloned == run.recloned || (at.Reread? && pc'.run.recloned == run.recloned + [todo[0]]))
  {
    LoopAdvances(run, todo, w.rows.Keys, RecloneStep(w, run, todo, at, ch).1.run);
  }

  lemma RunAdvances(w: World, run: Rejoin, todo: seq<InstanceId>, run': Rejoin)
    requires RunOk(w, run, todo) && todo != [] && LoopOk(run', todo[1..], w.rows.Keys)
    requires run'.job == run.job && run'.newP == run.newP && run'.promoted == run.promoted
    requires run'.recloned == run.recloned || (run'.recloned == run.recloned + [todo[0]] && Holds(w, todo[0], Standby))
    ensures RunOk(w, run', todo[1..])
  {
  }

  lemma LastStageKeeps(w: World, run: Rejoin, todo: seq<InstanceId>, at: Stage, ch: Choice)
    requires WorldOk(w) && RunOk(w, run, todo) && todo != [] && StageOk(w, todo[0], at) && LastStage(at)
    ensures var (w', pc') := RecloneStep(w, run, todo, at, ch);
            && pc'.Recloning? && pc'.todo == todo[1..] && pc'.at == MarkProvisioning
            && WorldOk(w') && RunOk(w', pc'.run, pc'.todo)
  {
    var (w', pc') := RecloneStep(w, run, todo, at, ch);
    StageTouches(w, run, todo, at, ch);
    TouchWorld(w, w', todo[0]);
    TouchRun(w, w', todo[0], run, todo);
    LastStageRun(w, run, todo, at, ch);
    RunAdvances(w', run, todo, pc'.run);
  }

  lemma MidStageKeeps(w: World, run: Rejoin, todo: seq<InstanceId>, at: Stage, ch: Choice)
    requires WorldOk(w) && RunOk(w, run, todo) && todo != [] && StageOk(w, todo[0], at) && !LastStage(at)
    ensures var (w', pc') := RecloneStep(w, run, todo, at, ch);
            pc'.Recloning? && pc'.todo == todo && StageOk(w', todo[0], pc'.at) && WorldOk(w')
                && RunOk(w', pc'.run, todo)
  {
    var (w', pc') := RecloneStep(w, run, todo, at, ch);
    StageTouches(w, run, todo, at, ch);
    TouchWorld(w, w', todo[0]);
    TouchRun(w, w', todo[0], run, todo);
    StageAdvances(w, run, todo, at, ch);
  }

  lemma StageKeepsPrimary(w: World, run: Rejoin, todo: seq<InstanceId>, at: Stage, ch: Choice)
    requires PrimaryOk(w, run) && todo != [] && RecloneStep(w, run, todo, at, ch).0.primary == w.primary
    ensures var (w', pc') := RecloneStep(w, run, todo, at, ch); pc'.Recloning? && PrimaryOk(w', pc'.run)
  {
  }

  lemma LoopIsGood(w: World, w': World, run: Rejoin, todo: seq<InstanceId>, at: Stage)
    requires WorldOk(w') && RunOk(w', run, todo) && PrimaryOk(w', run) && w.born <= w'.born
    requires todo != [] ==> StageOk(w', todo[0], at)
    ensures Good(w, (w', Recloning(run, todo, at)))
  {
  }

  lemma RecloneKeeps(w: World, run: Rejoin, todo: seq<InstanceId>, at: Stage, ch: Choice)
    requires WorldOk(w) && RunOk(w, run, todo) && PrimaryOk(w, run) && todo != [] && StageOk(w, todo[0], at)
    ensures Good(w, RecloneStep(w, run, todo, at, ch))
  {
    StageTouches(w, run, todo, at, ch);
    StageKeepsPrimary(w, run, todo, at, ch);
    var (w', pc') := RecloneStep(w, run, todo, at, ch);
    if LastStage(at) {
      LastStageKeeps(w, run, todo, at, ch);
    } else {
      MidStageKeeps(w, run, todo, at, ch);
    }
    LoopIsGood(w, w', pc'.run, pc'.todo, pc'.at);
  }

  // ---------- the tail of the failover ----------

  /** Writing the cluster's own columns or replacing the router touches no member. */
  lemma ClusterWrite(w: World, w': World, run: Rejoin, todo: seq<InstanceId>)
    requires WorldOk(w) && RunOk(w, run, todo)
    requires w' == w.(status := w'.status, primary := w'.primary, router := w'.router)
    ensures WorldOk(w') && RunOk(w', run, todo)
  {
    assert forall i :: Writer(w', i) ==> Writer(w, i);
  }

  lemma SavedIsOk(w: World, run: Rejoin, todo: seq<InstanceId>)
    requires RunOk(w, run, todo)
    ensures RunOk(w, run.(primarySaved := true), todo)
  {
  }

  lemma SaveKeeps(w: World, pc: Pc, ch: Choice)
    requires WorldOk(w) && pc.SavePrimary? && LateOk(w, pc)
    ensures Good(w, SaveStep(w, pc.run, pc.todo, ch))
  {
    var (w', pc') := SaveStep(w, pc.run, pc.todo, ch);
    ClusterWrite(w, w', pc.run, pc.todo);
    SavedIsOk(w', pc.run, pc.todo);
    LoopIsGood(w, w', pc'.run, pc.todo, MarkProvisioning);
  }

  lemma RunDegrades(w: World, run: Rejoin)
    requires RunOk(w, run, []) && PrimaryOk(w, run)
    ensures LateOk(w, Finish(run.(degraded := true)))
  {
  }

  lemma FinishIsGood(w: World, run: Rejoin)
    requires WorldOk(w) && RunOk(w, run, []) && PrimaryOk(w, run)
    ensures Good(w, (w, Finish(run.(degraded := true))))
  {
    RunDegrades(w, run);
    LateIsGood(w, (w, Finish(run.(degraded := true))));
  }

  lemma RouterIsLate(w: World, run: Rejoin, pc: Pc)
    requires RunOk(w, run, []) && PrimaryOk(w, run)
    requires pc == DropRouter(run) || pc == StartRouter(run)
             || (w.router == Some(Pool(run.newP, run.reattached)) && (pc == SaveRouter(run) || pc == Finish(run)))
    ensures LateOk(w, pc)
  {
  }

  lemma RouterIsGood(w: World, w': World, run: Rejoin, pc: Pc)
    requires WorldOk(w') && RunOk(w', run, []) && PrimaryOk(w', run) && w'.born == w.born
    requires pc == DropRouter(run) || pc == StartRouter(run)
             || (w'.router == Some(Pool(run.newP, run.reattached)) && (pc == SaveRouter(run) || pc == Finish(run)))
    ensures Good(w, (w', pc))
  {
    RouterIsLate(w', run, pc);
    LateIsGood(w, (w', pc));
  }

  lemma DropRouterKeeps(w: World, run: Rejoin, ch: Choice)
    requires WorldOk(w) && RunOk(w, run, []) && PrimaryOk(w, run)
    ensures Good(w, DropRouterStep(w, run, ch))
  {
    if ch.ok {
      var w' := if ch.done then w.(router := None) else w;
      ClusterWrite(w, w', run, []);
      RouterIsGood(w, w', run, StartRouter(run));
    } else {
      FinishIsGood(w, run);
    }
  }

  lemma StartRouterKeeps(w: World, run: Rejoin, ch: Choice)
    requires WorldOk(w) && RunOk(w, run, []) && PrimaryOk(w, run)
    ensures Good(w, StartRouterStep(w, run, ch))
  {
    if ch.ok && w.router.None? {
      var w' := w.(router := Some(Pool(run.newP, run.reattached)));
      ClusterWrite(w, w', run, []);
      RouterIsGood(w, w', run, SaveRouter(run));
    } else {
      FinishIsGood(w, run);
    }
  }

  lemma SaveRouterKeeps(w: World, pc: Pc, ch: Choice)
    requires WorldOk(w) && pc.SaveRouter? && LateOk(w, pc)
    ensures Good(w, ControllerStep(w, pc, ch))
  {
    if ch.write {
      RouterIsGood(w, w, pc.run, Finish(pc.run));
    } else {
      FinishIsGood(w, pc.run);
    }
  }

  lemma FinishKeeps(w: World, pc: Pc, ch: Choice)
    requires WorldOk(w) && pc.Finish? && LateOk(w, pc)
    ensures Good(w, ControllerStep(w, pc, ch))
  {
    var r := ControllerStep(w, pc, ch);
    ClusterWrite(w, r.0, pc.run, []);
    IdleIsGood(w, r);
  }

  lemma LoopKeeps(w: World, pc: Pc, ch: Choice)
    requires WorldOk(w) && pc.Recloning? && LateOk(w, pc)
    ensures Good(w, ControllerStep(w, pc, ch))
  {
    if pc.todo != [] {
      RecloneKeeps(w, pc.run, pc.todo, pc.at, ch);
    } else {
      RouterIsGood(w, w, pc.run, DropRouter(pc.run));
    }
  }

  lemma LateKeeps(w: World, pc: Pc, ch: Choice)
    requires WorldOk(w) && Late(pc) && LateOk(w, pc)
    ensures Good(w, ControllerStep(w, pc, ch))
  {
    match pc
    case SavePrimary(_, _) => SaveKeeps(w, pc, ch);
    case Recloning(_, _, _) => LoopKeeps(w, pc, ch);
    case DropRouter(run) => DropRouterKeeps(w, run, ch);
    case StartRouter(run) => StartRouterKeeps(w, run, ch);
    case SaveRouter(_) => SaveRouterKeeps(w, pc, ch);
    case Finish(_) => FinishKeeps(w, pc, ch);
  }

  lemma StepKeeps(w: World, pc: Pc, ch: Choice)
    requires WorldOk(w) && PcOk(w, pc) && (InWindow(pc) ==> ch.write)
    ensures Good(w, ControllerStep(w, pc, ch))
  {
    if pc.Idle? {
      IdleKeeps(w, ch);
    } else if pc.Fencing? {
      FencingKeeps(w, pc, ch);
    } else if Early(pc) {
      EarlyKeeps(w, pc, ch);
    } else if Fenced(pc) {
      FencedKeeps(w, pc, ch);
    } else if InWindow(pc) {
      WindowKeeps(w, pc, ch);
    } else {
      LateKeeps(w, pc, ch);
    }
  }

  lemma PassGrows(w: World, w': World, rec: Pass)
    requires PassOk(w, rec) && w.born <= w'.born
    ensures PassOk(w', rec)
  {
  }

  lemma ControllerKeeps(s: State, ch: Choice)
    requires Inv(s) && (InWindow(s.pc) ==> ch.write)
    ensures Inv(Step(s, Controller(ch)))
  {
    StepKeeps(s.w, s.pc, ch);
    PassGrows(s.w, ControllerStep(s.w, s.pc, ch).0, s.rec);
  }

  // ---------- the theorems ----------

  lemma {:induction false} RunKeepsInv(s: State, events: seq<Event>)
    requires Initial(s) && Holding(s, events, true, true)
    ensures Inv(Run(s, events))
  {
    if events == [] {
      InitialOk(s);
    } else {
      var before, e := Run(s, events[..|events| - 1]), events[|events| - 1];
      RunKeepsInv(s, events[..|events| - 1]);
      match e
      case Controller(ch) => ControllerKeeps(before, ch);
      case Reconciler(ch) => ReconcilerKeeps(before, ch);
      case ControlPlaneStop => StopKeeps(before);
      case _ => EnvironmentKeeps(before, e);
    }
  }

  /** Split-brain safety. */
  lemma NoSplitBrain(s: State, events: seq<Event>)
    requires Initial(s) && Trusted(s, events)
    ensures SingleWriter(Run(s, events).w)
    ensures OnePrimaryRow(Run(s, events).w.rows)
  {
    RunKeepsInv(s, events);
    InvIsSafe(Run(s, events));
  }

  /** What holds after the failover `run` has reported Running: its new primary is the only primary row,
      the only possible writer and the router's primary backend, and primary reads are on exactly when
      the router has no replica.  The rest depends on three things that can go wrong without the
      failover noticing, and holds exactly when they did not: the new primary, while its container
      exists, is a writer if and only if pg_promote took effect; the cluster row names it if and only
      if that write succeeded or it named it already; the router's replicas are all the survivors if
      and only if every re-cloned row could be read back, and always those of them that could, each on
      a fresh standby volume. */
  ghost predicate Agreed(w: World, run: Rejoin) {
    var survivors := Survivors(run.job.replicas, run.newP);
    && w.status == ClusterRunning
    && (forall i :: i in w.rows ==> (w.rows[i].role == Primary <==> i == run.newP))
    && WritersAre(w, run.newP)
    && (run.newP in w.containers ==> (Writer(w, run.newP) <==> run.promoted))
    && (w.primary == Some(run.newP) <==> run.primarySaved || run.was == Some(run.newP))
    && w.router.Some? && w.router.value.primary == run.newP
    && (forall i :: i in w.router.value.replicas <==> i in survivors && i !in run.unread)
    && (w.router.value.replicas == survivors <==> run.unread == {})
    && (forall i :: i in w.router.value.replicas ==> Holds(w, i, Standby))
    && (w.router.value.primaryReads <==> w.router.value.replicas == [])
  }

  lemma FinishedWriters(w: World, run: Rejoin)
    requires WorldOk(w) && RunOk(w, run, [])
    ensures var w' := w.(status := ClusterRunning);
            && WritersAre(w', run.newP) && (run.newP in w.containers ==> (Writer(w', run.newP) <==> run.promoted))
            && (forall i :: i in w.rows ==> (w.rows[i].role == Primary <==> i == run.newP))
  {
    assert forall i :: Writer(w.(status := ClusterRunning), i) ==> Writer(w, i);
  }

  lemma FinishedReplicas(run: Rejoin, members: set<InstanceId>)
    requires LoopOk(run, [], members) && !run.degraded
    ensures var survivors := Survivors(run.job.replicas, run.newP);
            && (forall i :: i in run.reattached <==> i in survivors && i !in run.unread)
            && (run.reattached == survivors <==> run.unread == {})
  {
    assert run.recloned + [] == run.recloned;
    if run.unread != {} {
      var i :| i in run.unread;
      assert i in run.recloned && i !in run.reattached;
    }
  }

  lemma FinishedAgreement(w: World, pc: Pc)
    requires WorldOk(w) && pc.Finish? && LateOk(w, pc) && !pc.run.degraded
    ensures Agreed(w.(status := ClusterRunning), pc.run)
  {
    FinishedWriters(w, pc.run);
    FinishedReplicas(pc.run, w.rows.Keys);
  }

  lemma FinishStatus(t: State, ch: Choice)
    requires t.pc.Finish? && !t.pc.run.degraded && ch.write
    ensures Step(t, Controller(ch)).w == t.w.(status := ClusterRunning)
  {
  }

  lemma InvAtFinish(t: State)
    requires Inv(t) && t.pc.Finish?
    ensures WorldOk(t.w) && LateOk(t.w, t.pc)
  {
  }

  /** Failover agreement: whenever a failover reports Running, everyone agrees on who is primary. */
  lemma RunningMeansAgreement(s: State, events: seq<Event>, ch: Choice)
    requires Initial(s) && Trusted(s, events)
    requires Run(s, events).pc.Finish? && !Run(s, events).pc.run.degraded && ch.write
    ensures Agreed(Step(Run(s, events), Controller(ch)).w, Run(s, events).pc.run)
  {
    var t := Run(s, events);
    RunKeepsInv(s, events);
    InvAtFinish(t);
    FinishedAgreement(t.w, t.pc);
    FinishStatus(t, ch);
  }
}
