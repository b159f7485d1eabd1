/** Automatic failover as a protocol (internal/failover/failover.go, with the primitives of
    internal/provision/failover_support.go and internal/provision/replica.go), running next to
    the reconciler (internal/reconcile/reconcile.go) in a world that crashes, restarts and loses
    containers and fails runtime calls.

    `Step` is total: each event names one step of one party and carries the outcome of every
    call that may go either way, so the finite sequences of events are exactly the runs of the
    system.  What the theorems assume about a run is written down in `Trusted`, and nothing else
    is assumed. */
module FailoverProtocol {
  import opened Optional
  import opened Fleet
  import opened Quorum
  import opened RouterPool

  /** What one pass read: the member rows, the old primary and the replicas. */
  datatype Job = Job(rows: map<InstanceId, Row>, oldP: Option<InstanceId>, replicas: seq<InstanceId>)

  /** The local variables of `failover` after the promotion.  `promoted` says whether pg_promote
      took effect on the standby, `was` is the primary id of the cluster row before the failover
      writes it, `recloned` and `unread` are the replicas whose clone succeeded and those of them
      whose row could not be read back. */
  datatype Rejoin = Rejoin(
    job: Job, newP: InstanceId, promoted: bool, was: Option<InstanceId>, primarySaved: bool, degraded: bool,
    recloned: seq<InstanceId>, unread: set<InstanceId>, reattached: seq<InstanceId>)

  /** Where re-cloning of one replica stands: PrepareReclone, then ProvisionReplica with its
      deferred cleanup, then the re-read of the row. */
  datatype Stage =
    | MarkProvisioning | RemoveContainer | DropVolume | ClearRuntime
    | PreparePrimary | CreateVolume | BaseBackup | CreateContainer
    | NoteContainer(c: ContainerId) | StartContainer(c: ContainerId) | AwaitStreaming(c: ContainerId)
    | MarkRunning
    | CleanContainer(c: ContainerId) | CleanVolume | MarkError
    | Reread

  /** Program counter of the failover controller. */
  datatype Pc =
    | Idle
    | Checking(job: Job)
    | Probing(job: Job, todo: seq<InstanceId>, up: nat)
    | Electing(job: Job, todo: seq<InstanceId>, best: Option<InstanceId>, bestLsn: int)
    | Fencing(job: Job, newP: InstanceId)
    | ClearFenced(job: Job, newP: InstanceId)
    | Promote(job: Job, newP: InstanceId)
    | PromoteFailed(job: Job, newP: InstanceId)
    | Demote(job: Job, newP: InstanceId, took: bool)
    | Crown(job: Job, newP: InstanceId, took: bool)
    | SavePrimary(run: Rejoin, todo: seq<InstanceId>)
    | Recloning(run: Rejoin, todo: seq<InstanceId>, at: Stage)
    | DropRouter(run: Rejoin)
    | StartRouter(run: Rejoin)
    | SaveRouter(run: Rejoin)
    | Finish(run: Rejoin)

  /** The reconciler's pass: it reads the rows, then the containers, then works through the
      instances with what it read, however stale that has become. */
  datatype Pass =
    | NoPass
    | Listed(rows: map<InstanceId, Row>)
    | Working(rows: map<InstanceId, Row>, found: map<InstanceId, ContainerId>, todo: seq<InstanceId>)
    | Inspected(rows: map<InstanceId, Row>, found: map<InstanceId, ContainerId>, todo: seq<InstanceId>,
                running: bool, adopted: bool)

  datatype State = State(w: World, pc: Pc, rec: Pass)

  /** Outcomes of the calls of one step: `ok` is what the call reports, `done` whether it took
      effect although it reported an error, `write` whether the meta-database write succeeded. */
  datatype Choice = Choice(ok: bool, done: bool, write: bool, lsn: int, effect: Effect)

  /** What pg_promote did to the standby before the call returned. */
  datatype Effect = Nothing | Signalled | Completed

  datatype Event =
    | Controller(ch: Choice)
    | Reconciler(ch: Choice)
    | Crash(i: InstanceId)
    | Revive(i: InstanceId)
    | Vanish(i: InstanceId)
    | PromotionCompletes(i: InstanceId)
    | ControlPlaneStop

  // ---------- primitives of the runtime and the meta database ----------

  function SetRow(w: World, i: InstanceId, row: Row, write: bool): World {
    if write && i in w.rows then w.(rows := w.rows[i := row]) else w
  }

  function SetStatus(w: World, i: InstanceId, st: Status, write: bool): World {
    if i in w.rows then SetRow(w, i, w.rows[i].(status := st), write) else w
  }

  function SetRuntime(w: World, i: InstanceId, cid: Option<ContainerId>, write: bool): World {
    if i in w.rows then SetRow(w, i, w.rows[i].(cid := cid), write) else w
  }

  /** The role update; the unique index one_primary_per_cluster refuses a second primary. */
  function SetRole(w: World, i: InstanceId, role: Role, write: bool): World {
    if i in w.rows && !(role == Primary && exists j | j in w.rows :: j != i && w.rows[j].role == Primary)
    then SetRow(w, i, w.rows[i].(role := role), write) else w
  }

  function SetClusterStatus(w: World, st: ClusterStatus, write: bool): World {
    if write then w.(status := st) else w
  }

  /** pg_isready through the recorded container: it can only answer when that container runs. */
  predicate Answers(w: World, row: Row, ok: bool) {
    ok && row.cid.Some? && Exists(w, row.cid.value) && w.containers[w.born[row.cid.value]].running
  }

  function Remove(w: World, c: ContainerId): World {
    if Exists(w, c) then w.(containers := w.containers - {w.born[c]}) else w
  }

  function SetRunning(w: World, i: InstanceId, running: bool): World {
    if i in w.containers then w.(containers := w.containers[i := w.containers[i].(running := running)]) else w
  }

  /** Docker refuses to remove a volume that a container still mounts. */
  predicate VolumeFree(w: World, i: InstanceId) {
    i !in w.containers
  }

  function SetVolume(w: World, i: InstanceId, v: Volume): World {
    if i in w.volumes then w.(volumes := w.volumes[i := v]) else w
  }

  predicate Supervised(st: ClusterStatus) {
    st == ClusterRunning || st == ClusterDegraded
  }

  // ---------- the failover controller, one call at a time ----------

  function ControllerStep(w: World, pc: Pc, ch: Choice): (World, Pc) {
    match pc
    case Idle => BeginStep(w, ch)
    case Checking(job) => CheckStep(w, job, ch)
    case Probing(job, todo, up) => ProbeStep(w, job, todo, up, ch)
    case Electing(job, todo, best, bestLsn) => ElectStep(w, job, todo, best, bestLsn, ch)
    case Fencing(job, newP) => FenceStep(w, job, newP, ch)
    case ClearFenced(job, newP) => ClearStep(w, job, newP, ch)
    case Promote(job, newP) => PromoteStep(w, job, newP, ch)
    case PromoteFailed(job, newP) => (SetClusterStatus(w, ClusterError, ch.write), Idle)
    case Demote(job, newP, took) => DemoteStep(w, job, newP, took, ch)
    case Crown(job, newP, took) => CrownStep(w, job, newP, took, ch)
    case SavePrimary(run, todo) => SaveStep(w, run, todo, ch)
    case Recloning(run, todo, at) =>
      if todo == [] then (w, DropRouter(run)) else RecloneStep(w, run, todo, at, ch)
    case DropRouter(run) => DropRouterStep(w, run, ch)
    case StartRouter(run) => StartRouterStep(w, run, ch)
    case SaveRouter(run) => (w, Finish(if ch.write then run else run.(degraded := true)))
    case Finish(run) =>
      (SetClusterStatus(w, if run.degraded then ClusterDegraded else ClusterRunning, ch.write), Idle)
  }

  /** Clusters that are neither running nor degraded are skipped (internal/failover/failover.go:93-103). */
  function BeginStep(w: World, ch: Choice): (World, Pc) {
    if Supervised(w.status) && ch.ok
    then (w, Checking(Job(w.rows, PrimaryOf(w.rows, w.order), ReplicasOf(w.rows, w.order))))
    else (w, Idle)
  }

  /** An answering primary clears the strikes; below the threshold the pass moves on (`ch.done` is
      false), at the threshold the failover starts (internal/failover/failover.go:105-118). */
  function CheckStep(w: World, job: Job, ch: Choice): (World, Pc) {
    if job.oldP.Some? && job.oldP.value in job.rows && Answers(w, job.rows[job.oldP.value], ch.ok) then (w, Idle)
    else if ch.done then (w, Probing(job, job.replicas, 0))
    else (w, Idle)
  }

  /** The quorum guard (internal/failover/failover.go:184-210). */
  function ProbeStep(w: World, job: Job, todo: seq<InstanceId>, up: nat, ch: Choice): (World, Pc) {
    if todo != [] then
      var hit := todo[0] in job.rows && Answers(w, job.rows[todo[0]], ch.ok);
      (w, Probing(job, todo[1..], if hit then up + 1 else up))
    else if up < Needed(|job.replicas|) then (SetClusterStatus(w, ClusterError, ch.write), Idle)
    else (w, Electing(job, job.replicas, None, 0))
  }

  /** The election (internal/failover/failover.go:145-162 and 212-217); a position that could not be
      read counts as `ch.lsn` not above the best so far. */
  function ElectStep(w: World, job: Job, todo: seq<InstanceId>, best: Option<InstanceId>, bestLsn: int, ch: Choice)
    : (World, Pc)
  {
    if todo != [] then
      var r := todo[0];
      if r in job.rows && Answers(w, job.rows[r], ch.ok) && ch.lsn > bestLsn
      then (w, Electing(job, todo[1..], Some(r), ch.lsn))
      else (w, Electing(job, todo[1..], best, bestLsn))
    else if best.None? then (SetClusterStatus(w, ClusterError, ch.write), Idle)
    else (w, Fencing(job, best.value))
  }

  function ClearStep(w: World, job: Job, newP: InstanceId, ch: Choice): (World, Pc) {
    (if job.oldP.Some? then SetRuntime(w, job.oldP.value, None, ch.write) else w, Promote(job, newP))
  }

  /** Demote the old primary before crowning the new one (internal/failover/failover.go:247-251). */
  function DemoteStep(w: World, job: Job, newP: InstanceId, took: bool, ch: Choice): (World, Pc) {
    if job.oldP.None? then (w, Crown(job, newP, took))
    else
      var w1 := SetStatus(w, job.oldP.value, Errored, ch.ok);
      (SetRole(w1, job.oldP.value, Replica, ch.write), Crown(job, newP, took))
  }

  function CrownStep(w: World, job: Job, newP: InstanceId, took: bool, ch: Choice): (World, Pc) {
    (SetStatus(SetRole(w, newP, Primary, ch.write), newP, Running, ch.ok),
     SavePrimary(Rejoin(job, newP, took, w.primary, false, false, [], {}, []), Survivors(job.replicas, newP)))
  }

  /** internal/failover/failover.go:252-258. */
  function SaveStep(w: World, run: Rejoin, todo: seq<InstanceId>, ch: Choice): (World, Pc) {
    if ch.write then (w.(primary := Some(run.newP)), NextClone(run.(primarySaved := true), todo))
    else (SetClusterStatus(w, ClusterDegraded, ch.ok), NextClone(run, todo))
  }

  /** The password read may fail; removing the old router is best effort
      (internal/failover/failover.go:310-325). */
  function DropRouterStep(w: World, run: Rejoin, ch: Choice): (World, Pc) {
    if !ch.ok then (w, Finish(run.(degraded := true)))
    else (if ch.done then w.(router := None) else w, StartRouter(run))
  }

  /** The router's container name is fixed, so a router that is still there blocks the new one. */
  function StartRouterStep(w: World, run: Rejoin, ch: Choice): (World, Pc) {
    if ch.ok && w.router.None?
    then (w.(router := Some(Pool(run.newP, run.reattached))), SaveRouter(run))
    else (w, Finish(run.(degraded := true)))
  }

  function NextClone(run: Rejoin, todo: seq<InstanceId>): Pc {
    Recloning(run, todo, MarkProvisioning)
  }

  /** internal/provision/failover_support.go:61-72 and internal/failover/failover.go:224-230. */
  function FenceStep(w: World, job: Job, newP: InstanceId, ch: Choice): (World, Pc) {
    if job.oldP.None? || job.oldP.value !in job.rows || job.rows[job.oldP.value].cid.None? then (w, Promote(job, newP))
    else
      var c := job.rows[job.oldP.value].cid.value;
      if ch.ok && Exists(w, c) then (Remove(w, c), ClearFenced(job, newP))
      else
        // A removal that reports an error may have worked; the best-effort stop before it does
        // what a `Crash` event does.
        (SetClusterStatus(if ch.done then Remove(w, c) else w, ClusterError, ch.write), Idle)
  }

  /** internal/provision/failover_support.go:47-54.  The exec can fail after pg_promote has been
      delivered, and psql exits zero even when pg_promote gave up waiting. */
  function PromoteStep(w: World, job: Job, newP: InstanceId, ch: Choice): (World, Pc) {
    if newP !in job.rows || !Answers(w, job.rows[newP], true) then (w, PromoteFailed(job, newP))
    else
      var took := newP in w.volumes && w.volumes[newP] == Standby && ch.effect != Nothing;
      var w1 := if took then SetVolume(w, newP, if ch.effect == Signalled then Promoting else Writable) else w;
      (w1, if ch.ok then Demote(job, newP, took) else PromoteFailed(job, newP))
  }

  /** internal/failover/failover.go:268-296, internal/provision/failover_support.go:74-90 and
      internal/provision/replica.go:18-114 for the replica `todo[0]`. */
  function RecloneStep(w: World, run: Rejoin, todo: seq<InstanceId>, at: Stage, ch: Choice): (World, Pc)
    requires todo != []
  {
    var r := todo[0];
    var rest := todo[1..];
    match at
    case MarkProvisioning => (SetStatus(w, r, Provisioning, ch.write), Recloning(run, todo, RemoveContainer))
    case RemoveContainer =>
      var c := if r in run.job.rows then run.job.rows[r].cid else None;
      (if c.Some? && ch.ok then Remove(w, c.value) else w, Recloning(run, todo, DropVolume))
    case DropVolume =>
      if ch.ok && VolumeFree(w, r) then (SetVolume(w, r, Absent), Recloning(run, todo, ClearRuntime))
      else (w, Recloning(run, todo, MarkError))
    case ClearRuntime => (SetRuntime(w, r, None, ch.write), Recloning(run, todo, PreparePrimary))
    case PreparePrimary =>
      (SetStatus(w, r, Provisioning, ch.write), Recloning(run, todo, if ch.ok then CreateVolume else MarkError))
    case CreateVolume =>
      if !ch.ok then (w, Recloning(run, todo, MarkError))
      // Creating a volume that exists succeeds and keeps its contents.
      else if r in w.volumes && w.volumes[r] == Absent then (SetVolume(w, r, Empty), Recloning(run, todo, BaseBackup))
      else (w, Recloning(run, todo, BaseBackup))
    case BaseBackup =>
      // pg_basebackup only fills an empty directory, and leaves a standby behind when it succeeds.
      if r in w.volumes && w.volumes[r] == Empty then
        if ch.ok then (SetVolume(w, r, Standby), Recloning(run, todo, CreateContainer))
        else (SetVolume(w, r, if ch.done then Torn else Empty), Recloning(run, todo, CleanVolume))
      else (w, Recloning(run, todo, CleanVolume))
    case CreateContainer =>
      // The container name is fixed per instance and Docker refuses a second container of that name.
      if ch.ok && r !in w.containers then
        (w.(born := w.born + [r], containers := w.containers[r := Container(|w.born|, false)]),
         Recloning(run, todo, NoteContainer(|w.born|)))
      else (w, Recloning(run, todo, CleanVolume))
    case NoteContainer(c) => (SetRuntime(w, r, Some(c), ch.write), Recloning(run, todo, StartContainer(c)))
    case StartContainer(c) =>
      if ch.ok && Exists(w, c) then (SetRunning(w, w.born[c], true), Recloning(run, todo, AwaitStreaming(c)))
      else (w, Recloning(run, todo, CleanContainer(c)))
    case AwaitStreaming(c) =>
      // Inspect, the second SetRuntime, waitReady and verifyStreaming: any error runs the cleanup.
      if ch.ok && ch.write then (SetRuntime(w, r, Some(c), true), Recloning(run, todo, MarkRunning))
      else (SetRuntime(w, r, Some(c), ch.write), Recloning(run, todo, CleanContainer(c)))
    case MarkRunning =>
      // ProvisionReplica returns the error of its last status write.
      if ch.write then (SetStatus(w, r, Running, true), Recloning(run, todo, Reread))
      else (w, Recloning(run, todo, MarkError))
    case CleanContainer(c) => (if ch.ok then Remove(w, c) else w, Recloning(run, todo, CleanVolume))
    case CleanVolume =>
      (if ch.ok && VolumeFree(w, r) then SetVolume(w, r, Absent) else w, Recloning(run, todo, MarkError))
    case MarkError => (SetStatus(w, r, Errored, ch.write), NextClone(run.(degraded := true), rest))
    case Reread =>
      var run1 := run.(recloned := run.recloned + [r]);
      (w, NextClone(if ch.ok then run1.(reattached := run.reattached + [r])
          else run1.(unread := run.unread + {r}), rest))
  }

  // ---------- the reconciler, one call at a time ----------

  predicate LeftAlone(st: Status) {
    st == Errored || st == Destroying || st == Restoring || st == Provisioning
  }

  /** The main containers the reconciler finds, by instance. */
  function Found(w: World): map<InstanceId, ContainerId> {
    map i | i in w.containers :: w.containers[i].id
  }

  /** internal/reconcile/reconcile.go:38-109, with arbitrary delays between its reads and writes. */
  function ReconcilerStep(w: World, rec: Pass, ch: Choice): (World, Pass) {
    match rec
    case NoPass => (w, if ch.ok then Listed(w.rows) else NoPass)
    case Listed(rows) =>
      if !ch.ok then (w, NoPass)
      else (w, Working(rows, Found(w), w.order))
    case Working(rows, found, todo) =>
      if todo == [] then (w, NoPass)
      else
        var i := todo[0];
        var next := Working(rows, found, todo[1..]);
        if i !in rows || LeftAlone(rows[i].status) then (w, next)
        else if i !in found then
          (if rows[i].status == Running then SetStatus(w, i, Errored, ch.write) else w, next)
        else if !ch.ok || !Exists(w, found[i]) then (w, next)
        else (w, Inspected(rows, found, todo, w.containers[w.born[found[i]]].running, false))
    case Inspected(rows, found, todo, running, adopted) =>
      if todo == [] || todo[0] !in rows || todo[0] !in found then (w, NoPass)
      else
        var i := todo[0];
        if !adopted then
          (if rows[i].cid != Some(found[i]) then SetRuntime(w, i, Some(found[i]), ch.write) else w,
           rec.(adopted := true))
        else
          var desired := if running then Running else Stopped;
          (if rows[i].status != desired then SetStatus(w, i, desired, ch.write) else w,
           Working(rows, found, todo[1..]))
  }

  // ---------- the whole system ----------

  function Step(s: State, e: Event): State {
    match e
    case Controller(ch) =>
      var (w, pc) := ControllerStep(s.w, s.pc, ch);
      s.(w := w, pc := pc)
    case Reconciler(ch) =>
      var (w, rec) := ReconcilerStep(s.w, s.rec, ch);
      s.(w := w, rec := rec)
    case Crash(i) => s.(w := SetRunning(s.w, i, false))
    case Revive(i) => s.(w := SetRunning(s.w, i, true))
    case Vanish(i) => s.(w := s.w.(containers := s.w.containers - {i}))
    case PromotionCompletes(i) =>
      if i in s.w.volumes && s.w.volumes[i] == Promoting then s.(w := SetVolume(s.w, i, Writable)) else s
    case ControlPlaneStop => s.(pc := Idle, rec := NoPass)
  }

  function Run(s: State, events: seq<Event>): State {
    if events == [] then s else Step(Run(s, events[..|events| - 1]), events[|events| - 1])
  }

  /** From the moment pg_promote may have been delivered until the new primary's role is written
      the rows do not name the writable node. */
  predicate InWindow(pc: Pc) {
    pc.PromoteFailed? || pc.Demote? || pc.Crown?
  }

  /** The control plane does not stop inside the window. */
  predicate StopOk(s: State, e: Event) {
    e.ControlPlaneStop? ==> !InWindow(s.pc)
  }

  /** The three writes made inside the window succeed: the cluster's error status after a failed
      promotion, the demotion of the old primary's role and the promotion of the new one's. */
  predicate WriteOk(s: State, e: Event) {
    e.Controller? && InWindow(s.pc) ==> e.ch.write
  }

  /** The assumptions hold along a run.  Every other write, every read and every runtime call may
      fail, and the control plane may stop anywhere else. */
  predicate Holding(s: State, events: seq<Event>, stops: bool, writes: bool) {
    events != [] ==>
      var before := Run(s, events[..|events| - 1]);
      && Holding(s, events[..|events| - 1], stops, writes)
      && (stops ==> StopOk(before, events[|events| - 1]))
      && (writes ==> WriteOk(before, events[|events| - 1]))
  }

  predicate Trusted(s: State, events: seq<Event>) {
    Holding(s, events, true, true)
  }

  /** What cluster creation leaves behind (internal/clusterctl/service.go:132-204): one primary on
      a writable volume, standbys for the rest, every container recorded, a router over them. */
  ghost predicate Provisioned(w: World, p: InstanceId) {
    && OrderOk(w.order, w.rows.Keys) && p in w.rows
    && w.volumes.Keys == w.rows.Keys && w.containers.Keys == w.rows.Keys
    && (forall i :: i in w.rows ==>
          && w.rows[i].role == (if i == p then Primary else Replica)
          && w.volumes[i] == (if i == p then Writable else Standby)
          && w.rows[i].cid == Some(w.containers[i].id)
          && w.containers[i].id < |w.born| && w.born[w.containers[i].id] == i)
    && w.status == ClusterRunning && w.primary == Some(p)
    && w.router == Some(Pool(p, ReplicasOf(w.rows, w.order)))
  }

  /** The listing order names every member once. */
  ghost predicate OrderOk(order: seq<InstanceId>, members: set<InstanceId>) {
    Distinct(order) && forall i :: i in order <==> i in members
  }

  ghost predicate Initial(s: State) {
    (exists p :: Provisioned(s.w, p)) && s.pc == Idle && s.rec == NoPass
  }
}
