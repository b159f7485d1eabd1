/** In-place restore by volume swap with rollback (internal/provision/restore.go:39-185), and the
    visibility flip that shares its per-instance mutex (internal/provision/visibility.go:28-163).

    `Host.log` holds the world after every single step, so a claim about all its entries is a
    claim about every point at which the control plane could die. */
module Restore {
  import opened Optional
  import opened Fleet

  type VolumeName = nat

  datatype Role = Standalone | ClusterPrimary | Replica

  /** A data volume is empty, half written by an unfinished restore, or a complete cluster. */
  datatype Contents = Blank | HalfWritten | Cluster(generation: nat)

  /** A container, the volume it mounts, and whether it holds the instance's fixed container name; the
      containers a restore creates have unique names. */
  datatype Mounted = Mounted(volume: VolumeName, running: bool, named: bool)

  datatype Row = Row(role: Role, cid: Option<ContainerId>, volume: VolumeName, status: Status, public: bool)

  datatype World = World(
    row: Row, containers: map<ContainerId, Mounted>, volumes: map<VolumeName, Contents>, next: nat)

  /** The volume the row names exists. */
  predicate Housed(w: World) {
    w.row.volume in w.volumes
  }

  /** It holds a complete cluster. */
  predicate Complete(w: World) {
    Housed(w) && w.volumes[w.row.volume].Cluster?
  }

  /** The volume the row names exists and holds what its writers completed, and names still to come are
      unused.  Steps write a volume only through the restore's one-shot container, so this speaks of the
      disk as long as the servers on the volume are kept apart. */
  ghost predicate Safe(w: World) {
    && Complete(w)
    && (forall v :: v in w.volumes ==> v < w.next)
    && (forall c :: c in w.containers ==> c < w.next && w.containers[c].volume < w.next)
    && (w.row.cid.Some? ==> w.row.cid.value < w.next)
  }

  // ---------- runtime and meta-database primitives ----------

  function SetStatus(w: World, st: Status): World { w.(row := w.row.(status := st)) }

  function SetRunning(w: World, c: Option<ContainerId>, on: bool, ok: bool): World {
    if ok && c.Some? && c.value in w.containers
    then w.(containers := w.containers[c.value := w.containers[c.value].(running := on)]) else w
  }

  function DropContainer(w: World, c: Option<ContainerId>, ok: bool): World {
    if ok && c.Some? then w.(containers := w.containers - {c.value}) else w
  }

  /** Docker refuses to remove a volume that some container mounts. */
  function DropVolume(w: World, v: VolumeName, ok: bool): World {
    if ok && forall c | c in w.containers :: w.containers[c].volume != v
    then w.(volumes := w.volumes - {v}) else w
  }

  function AddContainer(w: World, v: VolumeName, named: bool): World {
    w.(containers := w.containers[w.next := Mounted(v, false, named)], next := w.next + 1)
  }

  /** Docker refuses a second container of a name. */
  predicate NameFree(w: World) {
    forall c | c in w.containers :: !w.containers[c].named
  }

  /** Outcomes of the calls of one restore. */
  datatype Calls = Calls(
    load: bool, args: bool, createVolume: bool, stop: bool,
    createHelper: bool, helperExit: bool, removeHelper: bool,
    password: bool, createContainer: bool, start: bool, ready: bool, config: bool,
    inspect: bool, saveVolume: bool, removeOld: bool, dropOld: bool,
    undoContainer: bool, undoVolume: bool, restart: bool)

  /** Outcomes of the calls of one visibility flip. */
  datatype FlipCalls = FlipCalls(
    savePublic: bool, password: bool, stop: bool, remove: bool, create: bool, start: bool,
    ready: bool, config: bool, recreate: bool, restart: bool)

  /** An operation under the per-instance mutex; `dies` is the number of steps after which the
      control plane stops, if it does. */
  datatype Op =
    | RestoreOp(calls: Calls, dies: Option<nat>)
    | FlipOp(public: bool, flips: FlipCalls, dies: Option<nat>)

  datatype Outcome = Committed | RolledBack | Refused

  /** Every removal that only cleans up succeeds. */
  predicate CleanupWorks(o: Calls) {
    o.removeHelper && o.undoContainer && o.undoVolume && o.removeOld && o.dropOld
  }

  /** What rollbackRestore leaves: the restore's container and volume dropped, the original started. */
  function Undo(w: World, inst: Row, newContainer: Option<ContainerId>, newVolume: VolumeName, o: Calls): World {
    SetRunning(DropVolume(DropContainer(w, newContainer, o.undoContainer), newVolume, o.undoVolume), inst.cid, true,
        o.restart)
  }

  // ---------- servers on the instance's data ----------

  /** The container is a running server on the instance's data. */
  predicate Serves(w: World, c: ContainerId) {
    c in w.containers && w.containers[c].running && w.containers[c].volume == w.row.volume
  }

  /** No two servers run on the instance's data.  Only then does a volume keep what it holds: two servers
      on one data directory destroy it. */
  ghost predicate OneServer(w: World) {
    forall c: ContainerId, d: ContainerId :: Serves(w, c) && Serves(w, d) ==> c == d
  }

  /** No server runs on it. */
  ghost predicate NoServer(w: World) {
    forall c: ContainerId :: !Serves(w, c)
  }

  /** Nobody but the recorded container serves. */
  ghost predicate Calm(w: World) {
    forall c: ContainerId :: Serves(w, c) ==> w.row.cid == Some(c)
  }

  /** The recorded container exists on the instance's data. */
  predicate Mounts(w: World) {
    w.row.cid.Some? && Holds(w, w.row.cid.value)
  }

  lemma FewerServers(w: World, w': World)
    requires OneServer(w) && forall c: ContainerId :: Serves(w', c) ==> Serves(w, c)
    ensures OneServer(w')
  {
  }

  /** A world on the way of an operation that began in `w0` is fit if it is safe, the volume of `w0` is
      as it was, if it still exists, and, for an operation that is `solo`, no two servers share the data. */
  ghost predicate Fit(w: World, w0: World, solo: bool) {
    && Safe(w) && w0.row.volume in w0.volumes
    && (w0.row.volume in w.volumes ==> w.volumes[w0.row.volume] == w0.volumes[w0.row.volume])
    && (solo ==> OneServer(w))
  }

  /** The log grew by fit worlds only. */
  ghost predicate Grown(before: seq<World>, after: seq<World>, w0: World, solo: bool) {
    before <= after && forall k :: |before| <= k < |after| ==> Fit(after[k], w0, solo)
  }

  /** The row says restoring in every world the log grew by, so the reconciler leaves the instance alone. */
  ghost predicate Underway(before: seq<World>, after: seq<World>) {
    before <= after && forall k :: |before| <= k < |after| ==> after[k].row.status == Restoring
  }

  /** No two servers share the data in any world the log grew by. */
  ghost predicate OneThroughout(before: seq<World>, after: seq<World>) {
    forall k :: |before| <= k < |after| ==> OneServer(after[k])
  }

  /** Same volume and same name, whether it runs or not. */
  predicate SamePlace(c: Mounted, d: Mounted) {
    c.volume == d.volume && c.named == d.named
  }

  /** Same containers on the same volumes. */
  ghost predicate SameContainers(w: World, w': World) {
    && w'.containers.Keys == w.containers.Keys
    && forall c :: c in w.containers ==> SamePlace(w'.containers[c], w.containers[c])
  }

  /** The original container runs again if it ran before. */
  ghost predicate BackUp(w: World, w': World) {
    w.row.cid.Some? && w.row.cid.value in w.containers && w.containers[w.row.cid.value].running ==>
      w.row.cid.value in w'.containers && w'.containers[w.row.cid.value].running
  }

  /** Every volume and container is as it was, and the original runs again if it could be started. */
  ghost predicate Returned(w: World, w': World, o: Calls) {
    w'.volumes == w.volumes && SameContainers(w, w') && (o.restart ==> BackUp(w, w'))
  }

  /** The instance's recorded container does not run, so it archives nothing. */
  predicate Quiet(w: World) {
    w.row.cid.Some? && w.row.cid.value in w.containers ==> !w.containers[w.row.cid.value].running
  }

  /** A world reached while the original is still in place. */
  ghost predicate During(w: World, w': World) {
    && Safe(w') && w'.row == w.row.(status := w'.row.status) && w.next <= w'.next
    && w.row.volume in w.volumes && w'.volumes[w.row.volume] == w.volumes[w.row.volume]
  }

  /** The original containers are all there; only the recorded one may have been stopped. */
  ghost predicate Kept(w: World, w': World, o: Calls) {
    && (forall c :: c in w.containers ==> c in w'.containers && SamePlace(w'.containers[c], w.containers[c]))
    && (forall c :: c in w.containers ==>
          (w'.containers[c].running <==> w.containers[c].running && !(o.stop && w.row.cid == Some(c))))
  }

  /** Every container besides the original ones is on `nv`, and only `nc` may run. */
  ghost predicate Added(w: World, w': World, nv: VolumeName, nc: Option<ContainerId>) {
    forall c :: c in w'.containers && c !in w.containers ==>
      && c >= w.next && w'.containers[c].volume == nv && !w'.containers[c].named
      && (nc != Some(c) ==> !w'.containers[c].running)
  }

  /** The original world plus the staging volume `nv`, and at most the container `nc` on it. */
  ghost predicate Staged(w: World, w': World, nv: VolumeName, nc: Option<ContainerId>, o: Calls) {
    && During(w, w') && nv !in w.volumes && nv in w'.volumes && w'.volumes == w.volumes[nv := w'.volumes[nv]]
    && w.next <= nv < w'.next
    && Kept(w, w', o) && Added(w, w', nv, nc)
    && (o.removeHelper ==> w'.containers.Keys == w.containers.Keys + (if nc.Some? then {nc.value} else {}))
    && (nc.Some? ==> nc.value >= w.next && nc.value in w'.containers)
  }

  lemma StagedServers(w: World, w': World, nv: VolumeName, nc: Option<ContainerId>, o: Calls)
    requires Safe(w) && Staged(w, w', nv, nc, o)
    ensures forall c: ContainerId :: Serves(w', c) ==> Serves(w, c)
    ensures OneServer(w) ==> OneServer(w')
  {
  }

  lemma StagedIsFit(w: World, w': World, nv: VolumeName, nc: Option<ContainerId>, o: Calls, solo: bool)
    requires Safe(w) && Staged(w, w', nv, nc, o) && (solo ==> OneServer(w))
    ensures Fit(w', w, solo)
  {
    StagedServers(w, w', nv, nc, o);
  }

  lemma VolumeStaged(w: World, o: Calls, solo: bool)
    requires Safe(w) && (solo ==> OneServer(w))
    ensures var w1 := SetStatus(w, Restoring);
            var w2 := w1.(volumes := w1.volumes[w1.next := Blank], next := w1.next + 1);
            Staged(w, w2, w.next, None, o.(stop := false)) && Fit(w2, w, solo)
  {
    var w1 := SetStatus(w, Restoring);
    var w2 := w1.(volumes := w1.volumes[w1.next := Blank], next := w1.next + 1);
    StagedIsFit(w, w2, w.next, None, o.(stop := false), solo);
  }

  lemma StopKept(w: World, w': World, nv: VolumeName, o: Calls)
    requires Kept(w, w', o.(stop := false)) && Added(w, w', nv, None)
    ensures var u := SetRunning(w', w.row.cid, false, o.stop);
            && u.containers.Keys == w'.containers.Keys && Kept(w, u, o) && Added(w, u, nv, None)
            && forall c :: c in u.containers ==> SamePlace(u.containers[c], w'.containers[c])
  {
  }

  lemma StopIsStaged(w: World, w': World, u: World, nv: VolumeName, o: Calls)
    requires Staged(w, w', nv, None, o.(stop := false))
    requires During(w, u) && u.volumes == w'.volumes && u.next == w'.next && u.containers.Keys == w'.containers.Keys
    requires Kept(w, u, o) && Added(w, u, nv, None)
    ensures Staged(w, u, nv, None, o)
  {
  }

  lemma StopStaged(w: World, w': World, nv: VolumeName, o: Calls, solo: bool)
    requires Safe(w) && Staged(w, w', nv, None, o.(stop := false)) && (solo ==> OneServer(w))
    ensures Staged(w, SetRunning(w', w.row.cid, false, o.stop), nv, None, o)
    ensures Fit(SetRunning(w', w.row.cid, false, o.stop), w, solo)
  {
    var u := SetRunning(w', w.row.cid, false, o.stop);
    StopKept(w, w', nv, o);
    RunDuring(w, w', w.row.cid, false, o.stop);
    StopIsStaged(w, w', u, nv, o);
    StagedIsFit(w, u, nv, None, o, solo);
  }

  lemma AddStaged(w: World, w': World, nv: VolumeName, o: Calls, solo: bool)
    requires Safe(w) && Staged(w, w', nv, None, o) && (solo ==> OneServer(w))
    ensures Staged(w, AddContainer(w', nv, false), nv, Some(w'.next), o)
    ensures Fit(AddContainer(w', nv, false), w, solo)
  {
    StagedIsFit(w, AddContainer(w', nv, false), nv, Some(w'.next), o, solo);
  }

  lemma FillStaged(w: World, w': World, nv: VolumeName, nc: Option<ContainerId>, o: Calls, x: Contents, solo: bool)
    requires Safe(w) && Staged(w, w', nv, nc, o) && (solo ==> OneServer(w))
    ensures Staged(w, w'.(volumes := w'.volumes[nv := x]), nv, nc, o)
    ensures Fit(w'.(volumes := w'.volumes[nv := x]), w, solo)
  {
    StagedIsFit(w, w'.(volumes := w'.volumes[nv := x]), nv, nc, o, solo);
  }

  lemma StartStaged(w: World, w': World, nv: VolumeName, nc: ContainerId, o: Calls, ok: bool, solo: bool)
    requires Safe(w) && Staged(w, w', nv, Some(nc), o) && (solo ==> OneServer(w))
    ensures Staged(w, SetRunning(w', Some(nc), true, ok), nv, Some(nc), o)
    ensures Fit(SetRunning(w', Some(nc), true, ok), w, solo)
  {
    StagedIsFit(w, SetRunning(w', Some(nc), true, ok), nv, Some(nc), o, solo);
  }

  lemma DropStaged(w: World, w': World, nv: VolumeName, h: ContainerId, o: Calls, solo: bool)
    requires Safe(w) && Staged(w, w', nv, Some(h), o.(removeHelper := true)) && !w'.containers[h].running
    requires solo ==> OneServer(w)
    ensures Staged(w, DropContainer(w', Some(h), o.removeHelper), nv, None, o)
    ensures Fit(DropContainer(w', Some(h), o.removeHelper), w, solo)
  {
    StagedIsFit(w, DropContainer(w', Some(h), o.removeHelper), nv, None, o, solo);
  }

  /** Rolling back from any point of the restore gives the original resources back. */
  lemma UndoRestores(w: World, w': World, nv: VolumeName, nc: Option<ContainerId>, o: Calls)
    requires Safe(w) && Staged(w, w', nv, nc, o) && CleanupWorks(o)
    ensures var u := Undo(w', w.row, nc, nv, o);
            && u.volumes == w.volumes && SameContainers(w, u)
            && (o.restart ==> BackUp(w, u))
  {
    var w1 := DropContainer(w', nc, o.undoContainer);
    assert w1.containers.Keys == w.containers.Keys;
    assert forall c :: c in w1.containers ==> w1.containers[c].volume != nv;
    var w2 := DropVolume(w1, nv, o.undoVolume);
    assert w2.volumes == w.volumes;
  }

  /** The container mounts the instance's data. */
  predicate Holds(w: World, c: ContainerId) {
    c in w.containers && w.containers[c].volume == w.row.volume
  }

  lemma RunServes(w: World, c: Option<ContainerId>, on: bool, ok: bool, d: ContainerId)
    ensures var u := SetRunning(w, c, on, ok);
            && (Holds(u, d) <==> Holds(w, d))
            && (Serves(u, d) <==> if ok && c == Some(d) then on && Holds(w, d) else Serves(w, d))
  {
  }

  /** The recorded container stopped and started again, as far as those calls work. */
  function Restarted(w: World, o: Calls): World {
    SetRunning(SetRunning(w, w.row.cid, false, o.stop), w.row.cid, true, o.restart)
  }

  /** After a rollback the servers are those of the original world with its container restarted,
      whatever the cleanup left behind. */
  lemma UndoServers(w: World, w': World, nv: VolumeName, nc: Option<ContainerId>, o: Calls)
    requires Safe(w) && Staged(w, w', nv, nc, o)
    ensures forall c: ContainerId :: Serves(Undo(w', w.row, nc, nv, o), c) <==> Serves(Restarted(w, o), c)
  {
    forall c: ContainerId ensures Serves(Undo(w', w.row, nc, nv, o), c) <==> Serves(Restarted(w, o), c) {
      UndoServer(w, w', nv, nc, o, c);
    }
  }

  lemma UndoServer(w: World, w': World, nv: VolumeName, nc: Option<ContainerId>, o: Calls, c: ContainerId)
    requires Kept(w, w', o) && Added(w, w', nv, nc) && (nc.Some? ==> nc.value !in w.containers)
    requires w'.row.volume == w.row.volume != nv
    ensures Serves(Undo(w', w.row, nc, nv, o), c) <==> Serves(Restarted(w, o), c)
  {
    var w1 := SetRunning(w, w.row.cid, false, o.stop);
    RunServes(w, w.row.cid, false, o.stop, c);
    RunServes(w1, w.row.cid, true, o.restart, c);
    RunServes(DropVolume(DropContainer(w', nc, o.undoContainer), nv, o.undoVolume), w.row.cid, true, o.restart, c);
    ClearedServer(w, w', nv, nc, o, c);
  }

  /** What the first two steps of a rollback leave on the instance's data. */
  lemma ClearedServer(w: World, w': World, nv: VolumeName, nc: Option<ContainerId>, o: Calls, c: ContainerId)
    requires Kept(w, w', o) && Added(w, w', nv, nc) && (nc.Some? ==> nc.value !in w.containers)
    requires w'.row.volume == w.row.volume != nv
    ensures var u := DropVolume(DropContainer(w', nc, o.undoContainer), nv, o.undoVolume);
            (Holds(u, c) <==> Holds(w, c)) && (Serves(u, c) <==> Serves(w, c) && !(o.stop && w.row.cid == Some(c)))
  {
    var u := DropContainer(w', nc, o.undoContainer);
    assert DropVolume(u, nv, o.undoVolume).containers == u.containers;
    if c in w.containers {
      assert c in u.containers && u.containers[c] == w'.containers[c];
      assert SamePlace(w'.containers[c], w.containers[c]);
    }
  }

  /** The restart is harmless exactly if nobody but the restarted container serves. */
  lemma RestartServers(w: World, o: Calls)
    requires OneServer(w)
    ensures OneServer(Restarted(w, o)) <==> (o.restart && Mounts(w) ==> Calm(w))
  {
    var u := Restarted(w, o);
    if o.restart && Mounts(w) {
      assert Serves(u, w.row.cid.value);
      assert forall c: ContainerId :: w.row.cid != Some(c) ==> (Serves(u, c) <==> Serves(w, c));
    } else {
      assert forall c: ContainerId :: Serves(u, c) ==> Serves(w, c);
    }
  }

  lemma SameServers(w: World, w': World)
    requires forall c: ContainerId :: Serves(w, c) <==> Serves(w', c)
    ensures OneServer(w) <==> OneServer(w')
  {
    if OneServer(w) {
      FewerServers(w, w');
    }
    if OneServer(w') {
      FewerServers(w', w);
    }
  }

  /** Only the recorded container mounts the instance's data volume. */
  ghost predicate Tidy(w: World) {
    forall c :: c in w.containers && w.containers[c].volume == w.row.volume ==> w.row.cid == Some(c)
  }

  /** The world after the four steps that commit the swap. */
  function SavedRuntime(w: World, nc: ContainerId, o: Calls): World {
    if o.inspect then w.(row := w.row.(cid := Some(nc))) else w
  }

  function SavedVolume(w: World, nv: VolumeName, o: Calls): World {
    if o.saveVolume then w.(row := w.row.(volume := nv)) else w
  }

  /** What every committed restore does: the recorded container gives way to a new one on the new
      volume, which the row names if that was saved, and the container's id unless the last
      inspection failed. */
  ghost predicate Replaced(w: World, w': World, nv: VolumeName, nc: ContainerId, o: Calls) {
    && nv !in w.volumes && nc !in w.containers && nv in w'.volumes && w'.volumes[nv].Cluster?
    && w.next <= nv < w'.next && w.next <= nc < w'.next
    && (forall v :: v in w.volumes && v in w'.volumes ==> w'.volumes[v] == w.volumes[v])
    && w'.containers.Keys == w.containers.Keys - (if w.row.cid.Some? then {w.row.cid.value} else {}) + {nc}
    && w'.containers[nc] == Mounted(nv, true, false)
    && (forall c :: c in w.containers && c in w'.containers ==> SamePlace(w'.containers[c], w.containers[c]))
    && w'.row == w.row.(volume := if o.saveVolume then nv else w.row.volume,
                        cid := if o.inspect then Some(nc) else w.row.cid, status := w'.row.status)
  }

  /** Exactly one volume and one container were exchanged. */
  ghost predicate Swapped(w: World, w': World, nv: VolumeName, nc: ContainerId, o: Calls) {
    Replaced(w, w', nv, nc, o) && w'.volumes.Keys == w.volumes.Keys - {w.row.volume} + {nv}
  }

  /** The old volume stayed behind, because a container the row does not name still mounts it. */
  ghost predicate Leaked(w: World, w': World, nv: VolumeName, nc: ContainerId, o: Calls) {
    Replaced(w, w', nv, nc, o) && w'.volumes.Keys == w.volumes.Keys + {nv}
  }

  /** The exact outcome of a committed restore whose cleanup works. */
  ghost predicate CommittedExactly(w: World, w': World, nv: VolumeName, nc: ContainerId, o: Calls) {
    && (Swapped(w, w', nv, nc, o) <==> Tidy(w))
    && (Leaked(w, w', nv, nc, o) <==> !Tidy(w))
    && (Safe(w') <==> o.saveVolume || !Tidy(w))
    && (Tidy(w') <==> if o.saveVolume then o.inspect else Tidy(w))
  }

  function Commit4(w: World, w0: World, nv: VolumeName, nc: ContainerId, o: Calls): World {
    DropVolume(DropContainer(SavedVolume(SavedRuntime(w, nc, o), nv, o), w0.row.cid, o.removeOld), w0.row.volume,
        o.dropOld)
  }

  /** Without the recorded container nothing mounts the old volume, exactly in a tidy world. */
  lemma FreedIfTidy(w: World, w': World, nv: VolumeName, nc: ContainerId, o: Calls)
    requires Kept(w, w', o) && Added(w, w', nv, Some(nc)) && nv != w.row.volume
    ensures var u := DropContainer(w', w.row.cid, true);
            (forall c :: c in u.containers ==> u.containers[c].volume != w.row.volume) <==> Tidy(w)
  {
    var u := DropContainer(w', w.row.cid, true);
    if !Tidy(w) {
      var c :| c in w.containers && w.containers[c].volume == w.row.volume && w.row.cid != Some(c);
      assert c in u.containers && u.containers[c].volume == w.row.volume;
    }
  }

  lemma CommitVolumes(w: World, w': World, nv: VolumeName, nc: ContainerId, o: Calls)
    requires Safe(w) && Staged(w, w', nv, Some(nc), o) && CleanupWorks(o)
    ensures Commit4(w', w, nv, nc, o).containers == DropContainer(w', w.row.cid, true).containers
    ensures Commit4(w', w, nv, nc, o).volumes == if Tidy(w) then w'.volumes - {w.row.volume} else w'.volumes
  {
    FreedIfTidy(w, w', nv, nc, o);
  }

  lemma CommitKeys(w: World, w': World, nv: VolumeName, nc: ContainerId, o: Calls)
    requires Safe(w) && Staged(w, w', nv, Some(nc), o) && o.removeHelper
    ensures var u := DropContainer(w', w.row.cid, true).containers;
            && u.Keys == w.containers.Keys - (if w.row.cid.Some? then {w.row.cid.value} else {}) + {nc}
            && forall c :: c in u ==> u[c] == w'.containers[c]
  {
  }

  lemma CommitReplaces(w: World, w': World, nv: VolumeName, nc: ContainerId, o: Calls)
    requires Safe(w) && Staged(w, w', nv, Some(nc), o) && w'.volumes[nv].Cluster? && CleanupWorks(o)
    requires w'.containers[nc].running
    ensures Replaced(w, Commit4(w', w, nv, nc, o), nv, nc, o)
    ensures Commit4(w', w, nv, nc, o).volumes.Keys == w.volumes.Keys + {nv} - (if Tidy(w) then {w.row.volume} else {})
  {
    CommitVolumes(w, w', nv, nc, o);
    CommitKeys(w, w', nv, nc, o);
  }

  /** Exactly the tidy worlds are swapped; in any other the old volume leaks. */
  lemma CommitSwaps(w: World, w': World, nv: VolumeName, nc: ContainerId, o: Calls)
    requires Safe(w) && Staged(w, w', nv, Some(nc), o) && w'.volumes[nv].Cluster? && CleanupWorks(o)
    requires w'.containers[nc].running
    ensures CommittedExactly(w, Commit4(w', w, nv, nc, o), nv, nc, o)
  {
    var u := Commit4(w', w, nv, nc, o);
    CommitReplaces(w, w', nv, nc, o);
    assert w.row.volume in w.volumes && w.row.volume != nv;
    CommitSafe(w, w', nv, nc, o);
    CommitTidy(w, w', nv, nc, o);
  }

  lemma CommitSafe(w: World, w': World, nv: VolumeName, nc: ContainerId, o: Calls)
    requires Safe(w) && Staged(w, w', nv, Some(nc), o) && w'.volumes[nv].Cluster? && CleanupWorks(o)
    requires w'.containers[nc].running
    ensures Safe(Commit4(w', w, nv, nc, o)) <==> o.saveVolume || !Tidy(w)
  {
    CommitReplaces(w, w', nv, nc, o);
    CommitIsSafe(w, w', nv, nc, o);
  }

  /** A committed restore leaves a tidy world exactly if its last inspection succeeded. */
  lemma CommitTidy(w: World, w': World, nv: VolumeName, nc: ContainerId, o: Calls)
    requires Safe(w) && Staged(w, w', nv, Some(nc), o) && w'.volumes[nv].Cluster? && CleanupWorks(o)
    requires w'.containers[nc].running
    ensures Tidy(Commit4(w', w, nv, nc, o)) <==> if o.saveVolume then o.inspect else Tidy(w)
  {
    var u := Commit4(w', w, nv, nc, o);
    CommitReplaces(w, w', nv, nc, o);
    assert forall c :: c in u.containers && c != nc ==>
      c in w.containers && u.containers[c].volume == w.containers[c].volume;
    if o.saveVolume {
      assert nc in u.containers && u.containers[nc].volume == u.row.volume;
    } else if !Tidy(w) {
      var c :| c in w.containers && w.containers[c].volume == w.row.volume && w.row.cid != Some(c);
      assert c in u.containers && u.containers[c].volume == u.row.volume;
    }
  }

  lemma SavesAreSafe(w: World, w': World, nv: VolumeName, nc: ContainerId, o: Calls)
    requires Safe(w) && Staged(w, w', nv, Some(nc), o) && w'.volumes[nv].Cluster?
    ensures Fit(SavedRuntime(w', nc, o), w, false) && Fit(SavedVolume(SavedRuntime(w', nc, o), nv, o), w, false)
  {
  }

  lemma CommitIsSafe(w: World, w': World, nv: VolumeName, nc: ContainerId, o: Calls)
    requires Safe(w) && Staged(w, w', nv, Some(nc), o) && w'.volumes[nv].Cluster?
    ensures var u1 := SavedRuntime(w', nc, o);
            var u2 := SavedVolume(u1, nv, o);
            var u3 := DropContainer(u2, w.row.cid, o.removeOld);
            && Fit(u1, w, false) && Fit(u2, w, false) && Fit(u3, w, false)
            && (o.saveVolume ==> Fit(DropVolume(u3, w.row.volume, o.dropOld), w, false))
  {
    SavesAreSafe(w, w', nv, nc, o);
  }

  /** Once the new volume is saved the new container is its only server. */
  lemma CommitServers(w: World, w': World, nv: VolumeName, nc: ContainerId, o: Calls)
    requires Safe(w) && Staged(w, w', nv, Some(nc), o)
    ensures var u1 := SavedRuntime(w', nc, o);
            var u2 := SavedVolume(u1, nv, o);
            var u3 := DropContainer(u2, w.row.cid, o.removeOld);
            var u4 := DropVolume(u3, w.row.volume, o.dropOld);
            && (OneServer(w) ==> OneServer(u1))
            && (o.saveVolume || OneServer(w) ==> OneServer(u2) && OneServer(u3) && OneServer(u4))
  {
    StagedServers(w, w', nv, Some(nc), o);
    var u1 := SavedRuntime(w', nc, o);
    var u2 := SavedVolume(u1, nv, o);
    var u3 := DropContainer(u2, w.row.cid, o.removeOld);
    SameServers(w', u1);
    if o.saveVolume {
      assert forall c: ContainerId :: Serves(u2, c) ==> c == nc;
    }
    assert forall c: ContainerId :: Serves(u3, c) ==> Serves(u2, c);
    assert forall c: ContainerId :: Serves(DropVolume(u3, w.row.volume, o.dropOld), c) ==> Serves(u2, c);
  }

  /** Without that write the servers are the original ones, less the recorded container if it was removed. */
  lemma UnsavedServers(w: World, w': World, nv: VolumeName, nc: ContainerId, o: Calls)
    requires Safe(w) && Staged(w, w', nv, Some(nc), o) && !o.saveVolume
    ensures forall c: ContainerId :: Serves(Commit4(w', w, nv, nc, o), c) <==> Serves(Halted(w, o.stop, o.removeOld), c)
  {
  }

  /** The recorded container stopped and removed, as far as those calls work. */
  function Halted(w: World, stop: bool, remove: bool): World {
    DropContainer(SetRunning(w, w.row.cid, false, stop), w.row.cid, remove)
  }

  lemma CommitIsFit(w: World, w': World, nv: VolumeName, nc: ContainerId, o: Calls, solo: bool)
    requires Safe(w) && Staged(w, w', nv, Some(nc), o) && w'.volumes[nv].Cluster? && (solo ==> OneServer(w))
    ensures var u1 := SavedRuntime(w', nc, o);
            var u2 := SavedVolume(u1, nv, o);
            var u3 := DropContainer(u2, w.row.cid, o.removeOld);
            && Fit(u1, w, solo) && Fit(u2, w, solo) && Fit(u3, w, solo)
            && (o.saveVolume ==> Fit(DropVolume(u3, w.row.volume, o.dropOld), w, solo))
  {
    CommitIsSafe(w, w', nv, nc, o);
    CommitServers(w, w', nv, nc, o);
  }

  // ---------- when a restore keeps the servers apart ----------

  /** The restore gets as far as stopping the instance. */
  predicate Stops(w: World, o: Calls) {
    o.load && w.row.role == Standalone && o.args && o.createVolume
  }

  predicate Commits(w: World, o: Calls) {
    Stops(w, o) && StagingWorks(o) && SwapWorks(o)
  }

  /** No two servers share the data at any step of the restore: none did before, and if it rolls back
      and restarts the original, nobody else serves. */
  ghost predicate SoloRestore(w: World, o: Calls) {
    OneServer(w) && (Stops(w, o) && !Commits(w, o) && o.restart && Mounts(w) ==> Calm(w))
  }

  /** No two servers share the data after the restore. */
  ghost predicate OneAfterRestore(w: World, o: Calls) {
    if !Stops(w, o) then OneServer(w)
    else if !Commits(w, o) then OneServer(Restarted(w, o))
    else o.saveVolume || OneServer(Halted(w, o.stop, o.removeOld))
  }

  /** A solo restore ends with one server; one that is not either began with two or ends with two. */
  lemma SoloIsOne(w: World, o: Calls)
    ensures SoloRestore(w, o) ==> OneAfterRestore(w, o)
    ensures OneServer(w) && !SoloRestore(w, o) ==> !OneAfterRestore(w, o)
  {
    if OneServer(w) {
      RestartServers(w, o);
      FewerServers(w, Halted(w, o.stop, o.removeOld));
    }
  }

  // ---------- visibility flips ----------

  /** A flip is admitted and changes the flag. */
  predicate Flips(w: World, public: bool, f: FlipCalls) {
    && w.row.role == Standalone && (w.row.status == Running || w.row.status == Stopped)
    && w.row.public != public && f.savePublic
  }

  /** A flip has a running container to replace. */
  predicate Replaces(w: World, f: FlipCalls) {
    w.row.status == Running && w.row.cid.Some? && f.password
  }

  /** The row names a running container on the instance's data. */
  predicate Serving(w: World) {
    w.row.cid.Some? && Serves(w, w.row.cid.value)
  }

  /** Removing the recorded container frees the instance's container name. */
  predicate FreesName(w: World, f: FlipCalls) {
    forall c | c in w.containers && w.containers[c].named :: f.remove && w.row.cid == Some(c)
  }

  /** The replacement can be created: the call works and the name is free. */
  predicate Creates(w: World, f: FlipCalls) {
    f.create && FreesName(w, f)
  }

  /** Recovery can create a container: only if no replacement took the name before it. */
  predicate Recreates(w: World, f: FlipCalls) {
    !f.create && f.recreate && FreesName(w, f)
  }

  /** Removing the recorded container leaves nothing on the instance's data. */
  predicate FreesVolume(w: World, f: FlipCalls) {
    forall c | c in w.containers && w.containers[c].volume == w.row.volume :: f.remove && w.row.cid == Some(c)
  }

  /** The recorded container stopped and removed. */
  function Stripped(w: World, f: FlipCalls): World {
    Halted(w, f.stop, f.remove)
  }

  /** A new container on the instance's data, recorded in the row and started if `ok`. */
  function WithContainer(w: World, ok: bool): World {
    w.(containers := w.containers[w.next := Mounted(w.row.volume, ok, true)], next := w.next + 1,
       row := w.row.(cid := Some(w.next)))
  }

  function Recovered(w: World, public: bool, f: FlipCalls): World {
    var w1 := w.(row := w.row.(public := public));
    var made := f.recreate && NameFree(w1);
    SetStatus(if made then WithContainer(w1, f.restart) else w1, if made && f.restart then Running else Stopped)
  }

  lemma StrippedIs(w: World, f: FlipCalls)
    requires Safe(w) && w.row.cid.Some?
    ensures var u := Stripped(w, f);
            && Safe(u) && u.row == w.row && u.volumes == w.volumes && u.next == w.next
            && u.containers.Keys == w.containers.Keys - (if f.remove then {w.row.cid.value} else {})
            && (forall c :: c in u.containers ==> SamePlace(u.containers[c], w.containers[c]))
            && (NameFree(u) <==> FreesName(w, f))
  {
    var u := Stripped(w, f);
    if !FreesName(w, f) {
      var c :| c in w.containers && w.containers[c].named && !(f.remove && w.row.cid == Some(c));
      assert c in u.containers && u.containers[c].named;
    }
  }

  /** The world after Replace. */
  function AfterReplace(w: World, f: FlipCalls): World {
    if Creates(w, f) then WithContainer(Stripped(w, f), f.start) else Stripped(w, f)
  }

  /** The world after the container was replaced, or the flag put back and the container recreated. */
  function Rebound(w: World, f: FlipCalls): World {
    if Creates(w, f) && f.start
    then SetStatus(AfterReplace(w, f), if f.ready && f.config then Running else Errored)
    else Recovered(AfterReplace(w, f), !w.row.public, f)
  }

  /** The world after a flip that replaces a running container. */
  function Flipped(w: World, public: bool, f: FlipCalls): World {
    Rebound(w.(row := w.row.(public := public)), f)
  }

  /** A flip creates a container, at once or in recovery. */
  predicate Makes(w: World, f: FlipCalls) {
    Creates(w, f) || Recreates(w, f)
  }

  /** It starts the container it creates. */
  predicate Starts(w: World, f: FlipCalls) {
    (Creates(w, f) && f.start) || (Recreates(w, f) && f.restart)
  }

  /** What the removal left, and on top of it the container that was created, if any.  A replacement that
      starts takes over; otherwise the flag is put back and the instance runs exactly if the replacement was
      never created and recovery could use the name. */
  ghost predicate OnTop(w: World, u: World, public: bool, f: FlipCalls) {
    var taken := Creates(w, f) && f.start;
    && u.volumes == w.volumes
    && u.containers == (if Makes(w, f)
                        then Stripped(w, f).containers[w.next := Mounted(w.row.volume, Starts(w, f), true)]
                        else Stripped(w, f).containers)
    && u.row == w.row.(cid := if Makes(w, f) then Some(w.next) else w.row.cid,
                       public := if taken then public else w.row.public,
                       status := if taken && !(f.ready && f.config) then Errored
                                 else if Starts(w, f) then Running else Stopped)
  }

  lemma ReboundShape(w: World, f: FlipCalls)
    requires Safe(w) && w.row.cid.Some?
    ensures OnTop(w.(row := w.row.(public := !w.row.public)), Rebound(w, f), w.row.public, f)
  {
    StrippedIs(w, f);
    FlagOnly(w, !w.row.public, f);
    if Creates(w, f) {
      assert AfterReplace(w, f).containers[w.next].named;
    }
  }

  lemma FlipShape(w: World, public: bool, f: FlipCalls)
    requires Safe(w) && Replaces(w, f) && w.row.public != public
    ensures OnTop(w, Flipped(w, public, f), public, f)
  {
    var w1 := w.(row := w.row.(public := public));
    ReboundShape(w1, f);
    assert w == w1.(row := w1.row.(public := !w1.row.public));
  }

  /** The flag does not matter to the servers. */
  lemma FlagServers(w0: World, w: World, public: bool)
    ensures var w1 := w.(row := w.row.(public := public));
            && (Safe(w1) <==> Safe(w)) && (Tidy(w1) <==> Tidy(w))
            && (OneServer(w1) <==> OneServer(w)) && (NoServer(w1) <==> NoServer(w))
            && (forall solo :: Fit(w, w0, solo) ==> Fit(w1, w0, solo))
  {
    var w1 := w.(row := w.row.(public := public));
    assert forall c: ContainerId :: Serves(w1, c) <==> Serves(w, c);
    SameServers(w, w1);
  }

  /** The flag does not matter to what the removal frees. */
  lemma FlagOnly(w: World, public: bool, f: FlipCalls)
    ensures var w1 := w.(row := w.row.(public := public));
            && Stripped(w1, f) == Stripped(w, f).(row := w1.row)
            && (FreesName(w1, f) <==> FreesName(w, f)) && (FreesVolume(w1, f) <==> FreesVolume(w, f))
  {
  }

  lemma OnTopTidy(w: World, u: World, public: bool, f: FlipCalls)
    requires Safe(w) && w.row.cid.Some? && OnTop(w, u, public, f) && Makes(w, f)
    ensures Tidy(u) <==> FreesVolume(w, f)
  {
    StrippedIs(w, f);
    if !FreesVolume(w, f) {
      var c :| c in w.containers && w.containers[c].volume == w.row.volume && !(f.remove && w.row.cid == Some(c));
      assert c in u.containers && u.containers[c].volume == u.row.volume && u.row.cid != Some(c);
    }
    if !Tidy(u) {
      var c :| c in u.containers && u.containers[c].volume == u.row.volume && u.row.cid != Some(c);
      assert c in w.containers && w.containers[c].volume == w.row.volume && !(f.remove && w.row.cid == Some(c));
    }
  }

  lemma StrippedTidy(w: World, u: World, f: FlipCalls)
    requires Safe(w) && w.row.cid.Some? && u.row.volume == w.row.volume && u.row.cid == w.row.cid
    requires u.containers == Stripped(w, f).containers
    ensures Tidy(u) <==> Tidy(w)
  {
    StrippedIs(w, f);
    if !Tidy(w) {
      var c :| c in w.containers && w.containers[c].volume == w.row.volume && w.row.cid != Some(c);
      assert c in u.containers && u.containers[c].volume == u.row.volume;
    }
    if !Tidy(u) {
      var c :| c in u.containers && u.containers[c].volume == u.row.volume && u.row.cid != Some(c);
      assert c in w.containers && w.containers[c].volume == w.row.volume;
    }
  }

  /** A flip that creates a container leaves a tidy world exactly if the removal freed the volume; one
      that creates none leaves it as tidy as it was. */
  lemma FlipTidy(w: World, public: bool, f: FlipCalls)
    requires Safe(w) && Replaces(w, f) && w.row.public != public
    ensures Tidy(Flipped(w, public, f)) <==> if Makes(w, f) then FreesVolume(w, f) else Tidy(w)
  {
    FlipShape(w, public, f);
    if Makes(w, f) {
      OnTopTidy(w, Flipped(w, public, f), public, f);
    } else {
      StrippedTidy(w, Flipped(w, public, f), f);
    }
  }

  /** No two servers share the data at any step of the flip: none did before, and if it starts a container
      nothing that is left runs on the data. */
  ghost predicate SoloFlip(w: World, f: FlipCalls) {
    OneServer(w) && (Replaces(w, f) && Starts(w, f) ==> NoServer(Stripped(w, f)))
  }

  lemma FlagSolo(w: World, public: bool, f: FlipCalls)
    ensures var w1 := w.(row := w.row.(public := public));
            && (Safe(w1) <==> Safe(w)) && (Tidy(w1) <==> Tidy(w)) && (OneServer(w1) <==> OneServer(w))
            && (Starts(w1, f) <==> Starts(w, f)) && (NoServer(Stripped(w1, f)) <==> NoServer(Stripped(w, f)))
  {
    FlagOnly(w, public, f);
    FlagServers(w, w, public);
    FlagServers(w, Stripped(w, f), public);
  }

  lemma StrippedServers(w: World, f: FlipCalls)
    ensures forall c: ContainerId :: Serves(Stripped(w, f), c) ==> Serves(w, c)
    ensures OneServer(w) ==> OneServer(Stripped(w, f))
  {
  }

  /** What runs after a flip: what the removal left, and the container it started, if any. */
  lemma FlippedServers(w: World, public: bool, f: FlipCalls)
    requires Safe(w) && Replaces(w, f) && w.row.public != public
    ensures forall c: ContainerId :: c < w.next ==> (Serves(Flipped(w, public, f), c) <==> Serves(Stripped(w, f), c))
    ensures forall c: ContainerId :: c >= w.next ==> (Serves(Flipped(w, public, f), c) <==> c == w.next && Starts(w, f))
  {
    FlipShape(w, public, f);
    StrippedIs(w, f);
  }

  /** A flip leaves one server exactly if it starts none and one was left, or it starts one and none was. */
  lemma FlipServers(w: World, public: bool, f: FlipCalls)
    requires Safe(w) && Replaces(w, f) && w.row.public != public
    ensures OneServer(Flipped(w, public, f)) <==>
              if Starts(w, f) then NoServer(Stripped(w, f)) else OneServer(Stripped(w, f))
  {
    FlippedServers(w, public, f);
    StrippedIs(w, f);
    var u := Flipped(w, public, f);
    assert forall c: ContainerId :: Serves(Stripped(w, f), c) ==> c < w.next;
    if Starts(w, f) {
      assert Serves(u, w.next);
    } else {
      assert forall c: ContainerId :: Serves(u, c) <==> Serves(Stripped(w, f), c);
      SameServers(u, Stripped(w, f));
    }
  }

  /** The exact outcome of a flip. */
  ghost predicate FlipExactly(w: World, u: World, public: bool, f: FlipCalls) {
    if !Flips(w, public, f) then u == w
    else if !Replaces(w, f) then
      u == w.(row := w.row.(public := public)) && (Tidy(u) <==> Tidy(w)) && (OneServer(u) <==> OneServer(w))
    else
      && OnTop(w, u, public, f) && (u.row.status == Running ==> Serving(u))
      && (Tidy(u) <==> if Makes(w, f) then FreesVolume(w, f) else Tidy(w))
      && (OneServer(u) <==> if Starts(w, f) then NoServer(Stripped(w, f)) else OneServer(Stripped(w, f)))
  }

  /** Some container other than a removed `c` holds the instance's fixed name. */
  predicate NameHeld(w: World, c: ContainerId, removed: bool) {
    exists d :: d in w.containers && w.containers[d].named && !(removed && d == c)
  }

  /** A flip of a running instance with recorded container `c`.  The volumes and the row's other columns are
      as they were.  `c` is gone if it could be removed and else stopped if it could be stopped; every other
      container is as it was.  A container on the instance's data is created, and recorded, if the name is
      free and the replacement or, only if that could not be created, the recovery can create one.  A
      replacement that starts keeps the new flag and decides the status by whether it gets ready; in every
      other case the flag is put back, and the instance runs exactly if the recovery's container starts. */
  ghost predicate Exchanged(w: World, u: World, c: ContainerId, public: bool, f: FlipCalls) {
    var made := !NameHeld(w, c, f.remove) && (f.create || f.recreate);
    var starts := if f.create then f.start else f.restart;
    var taken := made && f.create && f.start;
    && u.volumes == w.volumes
    && u.row == w.row.(cid := if made then Some(w.next) else w.row.cid,
                       public := if taken then public else !public,
                       status := if taken then (if f.ready && f.config then Running else Errored)
                                 else if made && !f.create && f.restart then Running else Stopped)
    && (forall d :: d in w.containers ==>
          if f.remove && d == c then d !in u.containers
          else d in u.containers
               && u.containers[d] == if f.stop && d == c then w.containers[d].(running := false) else w.containers[d])
    && (forall d :: d in u.containers && d !in w.containers ==>
          made && d == w.next && u.containers[d] == Mounted(w.row.volume, starts, true))
    && (made ==> w.next in u.containers && w.next !in w.containers)
  }

  /** What a flip does, in the columns of the row.  One of an instance that is not standalone, is neither
      running nor stopped, has the flag already or whose flag cannot be saved changes nothing; one that
      stopped, has no recorded container or whose password cannot be read gets the flag and nothing else;
      for any other the container is exchanged. */
  ghost predicate FlipDoes(w: World, u: World, public: bool, f: FlipCalls) {
    if w.row.role != Standalone || (w.row.status != Running && w.row.status != Stopped) || w.row.public == public
       || !f.savePublic then u == w
    else if w.row.status == Stopped || w.row.cid.None? || !f.password then u == w.(row := w.row.(public := public))
    else Exchanged(w, u, w.row.cid.value, public, f)
  }

  lemma FlipIsExchange(w: World, public: bool, f: FlipCalls)
    requires Safe(w) && Flips(w, public, f) && Replaces(w, f)
    ensures Exchanged(w, Flipped(w, public, f), w.row.cid.value, public, f)
  {
    FlipShape(w, public, f);
    var c := w.row.cid.value;
    NameIsHeld(w, f);
    StrippedFields(w, f);
  }

  /** The world after an admitted flip. */
  function FlipWorld(w: World, public: bool, f: FlipCalls): World {
    if Replaces(w, f) then Flipped(w, public, f) else w.(row := w.row.(public := public))
  }

  lemma FlipIs(w: World, public: bool, f: FlipCalls)
    requires Safe(w) && Flips(w, public, f)
    ensures FlipExactly(w, FlipWorld(w, public, f), public, f) && FlipDoes(w, FlipWorld(w, public, f), public, f)
  {
    if Replaces(w, f) {
      FlipReplaces(w, public, f);
      FlipIsExchange(w, public, f);
    } else {
      FlagServers(w, w, public);
    }
  }

  lemma NameIsHeld(w: World, f: FlipCalls)
    requires w.row.cid.Some?
    ensures NameHeld(w, w.row.cid.value, f.remove) <==> !FreesName(w, f)
  {
    if !FreesName(w, f) {
      var d :| d in w.containers && w.containers[d].named && !(f.remove && w.row.cid == Some(d));
      assert w.containers[d].named && !(f.remove && d == w.row.cid.value);
    }
  }

  lemma StrippedFields(w: World, f: FlipCalls)
    requires w.row.cid.Some?
    ensures var u := Stripped(w, f); var c := w.row.cid.value;
            && (forall d :: d in w.containers ==>
                  if f.remove && d == c then d !in u.containers
                  else d in u.containers
                       && u.containers[d] == if f.stop && d == c then w.containers[d].(running := false)
                                             else w.containers[d])
            && (forall d :: d in u.containers ==> d in w.containers)
  {
  }

  lemma FlipReplaces(w: World, public: bool, f: FlipCalls)
    requires Safe(w) && Flips(w, public, f) && Replaces(w, f)
    ensures FlipExactly(w, Flipped(w, public, f), public, f)
  {
    FlipShape(w, public, f);
    FlipTidy(w, public, f);
    FlipServers(w, public, f);
  }

  /** What a committed restore leaves, whatever its cleanup did.  The row names the new volume and the new
      container as far as these could be saved; the new container runs on the new volume, which is complete.
      The recorded container is gone if it could be removed and else stopped if it could be stopped; every
      other container is as it was.  The old volume is gone if it could be removed and nothing mounts it;
      every other volume is as it was.  A one-shot container that could not be removed stays, stopped. */
  ghost predicate CommittedAnyway(w0: World, w: World, o: Calls, nv: VolumeName, nc: ContainerId) {
    && w.row == w0.row.(cid := if o.inspect then Some(nc) else w0.row.cid,
                        volume := if o.saveVolume then nv else w0.row.volume, status := w.row.status)
    && nc !in w0.containers && nc in w.containers && w.containers[nc] == Mounted(nv, true, false)
    && nv !in w0.volumes && nv in w.volumes && w.volumes[nv].Cluster?
    && (forall c :: c in w0.containers ==>
          if o.removeOld && w0.row.cid == Some(c) then c !in w.containers
          else && c in w.containers
               && w.containers[c] == if o.stop && w0.row.cid == Some(c) then w0.containers[c].(running := false)
                                     else w0.containers[c])
    && (forall c :: c in w.containers && c !in w0.containers && c != nc ==>
          !o.removeHelper && w.containers[c] == Mounted(nv, false, false))
    && (forall v :: v in w.volumes ==> if v in w0.volumes then w.volumes[v] == w0.volumes[v] else v == nv)
    && (forall v :: v in w0.volumes && v !in w.volumes ==> v == w0.row.volume && o.dropOld)
    && (o.dropOld ==> (w0.row.volume in w.volumes <==>
          exists c :: c in w.containers && w.containers[c].volume == w0.row.volume))
  }

  /** What a restore that is rolled back leaves, whatever its cleanup did: the row but for its status, every
      volume and every container are as they were, except that the recorded container, if the restore got as
      far as stopping it, runs if it could be started again, or ran and could not be stopped.  What is left
      over has no fixed name and is on no volume that was there. */
  ghost predicate RolledBackAnyway(w0: World, w: World, o: Calls) {
    && w.row == w0.row.(status := w.row.status)
    && (forall c :: c in w0.containers ==>
          && c in w.containers
          && w.containers[c] == if o.load && w0.row.role == Standalone && o.args && o.createVolume
                                   && w0.row.cid == Some(c)
                                then w0.containers[c].(running := o.restart || (w0.containers[c].running && !o.stop))
                                else w0.containers[c])
    && (forall v :: v in w0.volumes ==> v in w.volumes && w.volumes[v] == w0.volumes[v])
    && (forall c :: c in w.containers && c !in w0.containers ==>
          !w.containers[c].named && w.containers[c].volume !in w0.volumes)
  }

  lemma CommitAnyway(w0: World, w: World, nv: VolumeName, nc: ContainerId, o: Calls)
    requires Safe(w0) && Staged(w0, w, nv, Some(nc), o) && w.volumes[nv].Cluster? && w.containers[nc].running
    ensures CommittedAnyway(w0, Commit4(w, w0, nv, nc, o), o, nv, nc)
  {
    CommitContainers(w0, w, nv, nc, o);
    CommitLeftovers(w0, w, nv, nc, o);
    CommitOldVolume(w0, w, nv, nc, o);
  }

  lemma CommitContainers(w0: World, w: World, nv: VolumeName, nc: ContainerId, o: Calls)
    requires Kept(w0, w, o)
    ensures var u := Commit4(w, w0, nv, nc, o);
            forall c :: c in w0.containers ==>
              if o.removeOld && w0.row.cid == Some(c) then c !in u.containers
              else && c in u.containers
                   && u.containers[c] == if o.stop && w0.row.cid == Some(c) then w0.containers[c].(running := false)
                                         else w0.containers[c]
  {
    var u := Commit4(w, w0, nv, nc, o);
    assert u.containers == DropContainer(w, w0.row.cid, o.removeOld).containers;
    forall c | c in w0.containers
      ensures w.containers[c] == if o.stop && w0.row.cid == Some(c) then w0.containers[c].(running := false)
                                 else w0.containers[c]
    {
      assert SamePlace(w.containers[c], w0.containers[c]);
    }
  }

  lemma CommitLeftovers(w0: World, w: World, nv: VolumeName, nc: ContainerId, o: Calls)
    requires Safe(w0) && Staged(w0, w, nv, Some(nc), o) && w.containers[nc].running
    ensures var u := Commit4(w, w0, nv, nc, o);
            && nc in u.containers && u.containers[nc] == Mounted(nv, true, false)
            && forall c :: c in u.containers && c !in w0.containers && c != nc ==>
                 !o.removeHelper && u.containers[c] == Mounted(nv, false, false)
  {
    assert Commit4(w, w0, nv, nc, o).containers == DropContainer(w, w0.row.cid, o.removeOld).containers;
  }

  lemma CommitOldVolume(w0: World, w: World, nv: VolumeName, nc: ContainerId, o: Calls)
    requires Safe(w0) && Staged(w0, w, nv, Some(nc), o)
    ensures var u := Commit4(w, w0, nv, nc, o);
            && nv in u.volumes && u.volumes[nv] == w.volumes[nv]
            && (forall v :: v in u.volumes ==> if v in w0.volumes then u.volumes[v] == w0.volumes[v] else v == nv)
            && (forall v :: v in w0.volumes && v !in u.volumes ==> v == w0.row.volume && o.dropOld)
            && (o.dropOld ==> (w0.row.volume in u.volumes <==>
                  exists c :: c in u.containers && u.containers[c].volume == w0.row.volume))
  {
    var u3 := DropContainer(SavedVolume(SavedRuntime(w, nc, o), nv, o), w0.row.cid, o.removeOld);
    var u := DropVolume(u3, w0.row.volume, o.dropOld);
    assert u == Commit4(w, w0, nv, nc, o) && u.containers == u3.containers && u3.volumes == w.volumes;
  }

  lemma UndoContainers(w0: World, w: World, nv: VolumeName, nc: Option<ContainerId>, o: Calls)
    requires Kept(w0, w, o) && (nc.Some? ==> nc.value !in w0.containers)
    ensures var u := Undo(w, w0.row, nc, nv, o);
            forall c :: c in w0.containers ==>
              && c in u.containers
              && u.containers[c] == if w0.row.cid == Some(c)
                                    then w0.containers[c].(running := o.restart
                                                                      || (w0.containers[c].running && !o.stop))
                                    else w0.containers[c]
  {
    var u1 := DropContainer(w, nc, o.undoContainer);
    assert DropVolume(u1, nv, o.undoVolume).containers == u1.containers;
    forall c | c in w0.containers
      ensures c in u1.containers
      ensures u1.containers[c] == w0.containers[c].(running := w0.containers[c].running
                                                               && !(o.stop && w0.row.cid == Some(c)))
    {
      assert SamePlace(w.containers[c], w0.containers[c]);
    }
  }

  lemma UndoLeftovers(w0: World, w: World, nv: VolumeName, nc: Option<ContainerId>, o: Calls)
    requires Safe(w0) && Staged(w0, w, nv, nc, o)
    ensures var u := Undo(w, w0.row, nc, nv, o);
            && (forall v :: v in w0.volumes ==> v in u.volumes && u.volumes[v] == w0.volumes[v])
            && (forall c :: c in u.containers && c !in w0.containers ==>
                  !u.containers[c].named && u.containers[c].volume !in w0.volumes)
  {
    var u1 := DropContainer(w, nc, o.undoContainer);
    var u2 := DropVolume(u1, nv, o.undoVolume);
    assert u2.containers == u1.containers && (forall v :: v in w0.volumes ==> v in u2.volumes);
  }

  lemma UndoAnyway(w0: World, w: World, nv: VolumeName, nc: Option<ContainerId>, o: Calls)
    requires Safe(w0) && Staged(w0, w, nv, nc, o) && Stops(w0, o)
    ensures RolledBackAnyway(w0, Undo(w, w0.row, nc, nv, o), o)
  {
    UndoContainers(w0, w, nv, nc, o);
    UndoLeftovers(w0, w, nv, nc, o);
  }

  /** What a restore leaves.  Provided the row's new volume could be saved, or nothing was committed, the
      world is safe and the original volume, if it is still there, holds what it held.  A restore that does
      not commit changes nothing of the row but its status and, if its cleanup works, returns every resource
      and leaves the world as tidy as it was; one that commits has the exact outcome above. */
  ghost predicate Ended(w0: World, w: World, o: Calls, ok: bool, nv: VolumeName, nc: ContainerId) {
    && (o.saveVolume || !ok ==> Fit(w, w0, false))
    && (!ok ==> During(w0, w) && RolledBackAnyway(w0, w, o))
    && (ok ==> CommittedAnyway(w0, w, o, nv, nc))
    && (!ok && CleanupWorks(o) ==> Returned(w0, w, o) && (Tidy(w) <==> Tidy(w0)))
    && (ok && CleanupWorks(o) ==> CommittedExactly(w0, w, nv, nc, o))
    && (OneServer(w) <==> OneAfterRestore(w0, o))
  }

  lemma StatusOnly(w0: World, w: World, st: Status)
    ensures var u := SetStatus(w, st);
            && (Safe(u) <==> Safe(w)) && (Tidy(u) <==> Tidy(w)) && (OneServer(u) <==> OneServer(w))
            && (forall solo :: Fit(w, w0, solo) ==> Fit(u, w0, solo))
  {
    SameServers(w, SetStatus(w, st));
  }

  lemma StatusCommitted(w0: World, w: World, st: Status, nv: VolumeName, nc: ContainerId, o: Calls)
    requires CommittedExactly(w0, w, nv, nc, o)
    ensures CommittedExactly(w0, SetStatus(w, st), nv, nc, o)
  {
    var u := SetStatus(w, st);
    StatusOnly(w0, w, st);
    assert Replaced(w0, w, nv, nc, o) <==> Replaced(w0, u, nv, nc, o);
  }

  /** The wrapper's last write touches the status column only. */
  lemma LastStatus(w0: World, w: World, st: Status, o: Calls, ok: bool, nv: VolumeName, nc: ContainerId)
    requires Ended(w0, w, o, ok, nv, nc)
    ensures Ended(w0, SetStatus(w, st), o, ok, nv, nc)
  {
    StatusOnly(w0, w, st);
    if ok && CleanupWorks(o) {
      StatusCommitted(w0, w, st, nv, nc, o);
    }
  }

  /** A restore that never got as far as stopping the instance. */
  lemma NotStopped(w0: World, st: Status, o: Calls)
    requires Safe(w0) && !Stops(w0, o)
    ensures Ended(w0, SetStatus(w0, st), o, false, 0, 0)
  {
    StatusOnly(w0, w0, st);
  }

  /** A rolled-back restore with working cleanup leaves a tidy world tidy and an untidy one untidy. */
  lemma ReturnedTidy(w: World, w': World, o: Calls)
    requires Returned(w, w', o) && w'.row.volume == w.row.volume && w'.row.cid == w.row.cid
    ensures Tidy(w') <==> Tidy(w)
  {
    if !Tidy(w) {
      var c :| c in w.containers && w.containers[c].volume == w.row.volume && w.row.cid != Some(c);
      assert c in w'.containers && w'.containers[c].volume == w'.row.volume;
    }
  }

  /** Every call that has to work for a restore to commit. */
  predicate StagingWorks(o: Calls) {
    o.args && o.createVolume && o.createHelper && o.helperExit
  }

  predicate SwapWorks(o: Calls) {
    o.password && o.createContainer && o.start && o.ready && o.config
  }

  lemma ContainerDuring(w: World, w': World, c: Option<ContainerId>, ok: bool)
    requires During(w, w')
    ensures During(w, DropContainer(w', c, ok))
  {
  }

  lemma VolumeDuring(w: World, w': World, v: VolumeName, ok: bool)
    requires During(w, w') && v != w.row.volume
    ensures During(w, DropVolume(w', v, ok))
  {
  }

  lemma RunDuring(w: World, w': World, c: Option<ContainerId>, on: bool, ok: bool)
    requires During(w, w')
    ensures During(w, SetRunning(w', c, on, ok))
  {
  }

  /** The steps of a rollback. */
  lemma UndoSteps(w: World, w': World, nv: VolumeName, nc: Option<ContainerId>, o: Calls)
    requires Safe(w) && Staged(w, w', nv, nc, o)
    ensures var u1 := DropContainer(w', nc, o.undoContainer); var u2 := DropVolume(u1, nv, o.undoVolume);
            && During(w, u1) && During(w, u2) && During(w, Undo(w', w.row, nc, nv, o))
            && (OneServer(w) ==> OneServer(u1) && OneServer(u2))
  {
    StagedServers(w, w', nv, nc, o);
    var u1 := DropContainer(w', nc, o.undoContainer);
    var u2 := DropVolume(u1, nv, o.undoVolume);
    ContainerDuring(w, w', nc, o.undoContainer);
    VolumeDuring(w, u1, nv, o.undoVolume);
    RunDuring(w, u2, w.row.cid, true, o.restart);
    if OneServer(w) {
      FewerServers(w', u1);
      FewerServers(u1, u2);
    }
  }

  lemma CommitOne(w: World, w': World, nv: VolumeName, nc: ContainerId, o: Calls)
    requires Safe(w) && Staged(w, w', nv, Some(nc), o)
    ensures OneServer(Commit4(w', w, nv, nc, o)) <==> o.saveVolume || OneServer(Halted(w, o.stop, o.removeOld))
  {
    CommitServers(w, w', nv, nc, o);
    if !o.saveVolume {
      UnsavedServers(w, w', nv, nc, o);
      SameServers(Commit4(w', w, nv, nc, o), Halted(w, o.stop, o.removeOld));
    }
  }

  lemma FewerIfStopped(w: World, ok: bool)
    ensures forall c: ContainerId :: Serves(SetRunning(w, w.row.cid, false, ok), c) ==> Serves(w, c)
    ensures OneServer(w) ==> OneServer(SetRunning(w, w.row.cid, false, ok))
  {
  }

  /** The three steps that put a container on the instance's data. */
  lemma NewIsFit(w: World, w0: World, ok: bool, solo: bool)
    requires Safe(w) && OnVolumes(w, w0) && (solo ==> OneServer(w) && (ok ==> NoServer(w)))
    ensures var u1 := AddContainer(w, w.row.volume, true); var u2 := u1.(row := u1.row.(cid := Some(w.next)));
            && Fit(u1, w0, solo) && Fit(u2, w0, solo) && Fit(WithContainer(w, ok), w0, solo)
            && SetRunning(u2, Some(w.next), true, ok) == WithContainer(w, ok)
  {
    var u1 := AddContainer(w, w.row.volume, true);
    var u2 := u1.(row := u1.row.(cid := Some(w.next)));
    assert forall c: ContainerId :: Serves(u1, c) ==> Serves(w, c);
    assert forall c: ContainerId :: Serves(u2, c) ==> Serves(w, c);
    assert forall c: ContainerId :: Serves(WithContainer(w, ok), c) ==> Serves(w, c) || (ok && c == w.next);
  }

  /** A flip touches no volume. */
  predicate OnVolumes(w: World, w0: World) {
    w.volumes == w0.volumes && w.row.volume == w0.row.volume && w0.row.volume in w0.volumes
  }

  /** After a replacement that did not start, recovery finds the name free exactly if nothing was created. */
  lemma ReplacedServers(w: World, f: FlipCalls)
    requires Safe(w) && w.row.cid.Some? && !(Creates(w, f) && f.start)
    ensures f.recreate && f.restart && NameFree(AfterReplace(w, f)) ==>
              Starts(w, f) && AfterReplace(w, f) == Stripped(w, f)
  {
    StrippedIs(w, f);
    if Creates(w, f) {
      assert AfterReplace(w, f).containers[w.next].named;
    }
  }

  lemma FirstEntry(start: seq<World>, log: seq<World>, w0: World, o: Calls)
    requires log == start + [SetStatus(w0, Errored)] && !Stops(w0, o)
    ensures OneThroughout(start, log) <==> SoloRestore(w0, o)
  {
    SameServers(w0, SetStatus(w0, Errored));
    assert log[|start|] == SetStatus(w0, Errored);
  }

  /** A restore that is not solo shows it in its first entry or in its last. */
  lemma LastEntry(start: seq<World>, first: seq<World>, log: seq<World>, w0: World, o: Calls)
    requires Safe(w0) && first == start + [SetStatus(w0, Restoring)] && |log| > |first|
    requires Grown(first, log[..|log| - 1], w0, SoloRestore(w0, o)) && Fit(log[|log| - 1], w0, false)
    requires OneServer(log[|log| - 1]) <==> OneAfterRestore(w0, o)
    ensures Grown(start, log, w0, SoloRestore(w0, o))
    ensures OneThroughout(start, log) <==> SoloRestore(w0, o)
  {
    SoloIsOne(w0, o);
    StatusOnly(w0, w0, Restoring);
    assert log[|start|] == first[|start|] == SetStatus(w0, Restoring);
    if SoloRestore(w0, o) {
      forall k | |start| <= k < |log| ensures Fit(log[k], w0, true) {
        if |first| <= k < |log| - 1 {
          assert log[k] == log[..|log| - 1][k];
        }
      }
    } else {
      assert !OneServer(log[|start|]) || !OneServer(log[|log| - 1]);
    }
  }

  lemma FlipEntries(start: seq<World>, first: seq<World>, log: seq<World>, w0: World, w: World, public: bool,
                    f: FlipCalls)
    requires Safe(w0) && Flips(w0, public, f) && first == start + [w0.(row := w0.row.(public := public))]
    requires Grown(first, log, w0, SoloFlip(w0, f)) && log[|log| - 1] == w && FlipExactly(w0, w, public, f)
    ensures Grown(start, log, w0, SoloFlip(w0, f))
    ensures OneThroughout(start, log) <==> SoloFlip(w0, f)
  {
    FlagServers(w0, w0, public);
    assert log[|start|] == first[|start|];
    if !SoloFlip(w0, f) {
      assert !OneServer(log[|start|]) || !OneServer(log[|log| - 1]);
    }
  }

  lemma UnderwayAll(start: seq<World>, first: seq<World>, log: seq<World>, w0: World, last: World)
    requires first == start + [SetStatus(w0, Restoring)] && Underway(first, log)
    ensures var more := log + [last]; |more| > |start| && Underway(start, more[..|more| - 1])
  {
    assert (log + [last])[..|log|] == log;
    assert log[|start|] == first[|start|];
  }

  class Host {
    var w: World
    var log: seq<World>

    constructor (w0: World)
      ensures w == w0 && log == []
    {
      w := w0;
      log := [];
    }

    /** One step: the new world, and its entry in the log. */
    method Do(w1: World, ghost start: seq<World>, ghost w0: World, ghost solo: bool)
      requires Grown(start, log, w0, solo)
      modifies this
      ensures w == w1 && log == old(log) + [w1]
      ensures Fit(w1, w0, solo) ==> Grown(start, log, w0, solo)
      ensures Underway(start, old(log)) && w1.row.status == Restoring ==> Underway(start, log)
    {
      w := w1;
      log := log + [w1];
    }

    /** rollbackRestore. */
    method RollBack(inst: Row, nc: Option<ContainerId>, nv: VolumeName, o: Calls,
                    ghost start: seq<World>, ghost w0: World, ghost solo: bool)
      requires Safe(w0) && Staged(w0, w, nv, nc, o) && inst == w0.row && Grown(start, log, w0, solo)
      requires solo ==> OneServer(w0) && OneServer(Restarted(w0, o))
      requires w.row.status == Restoring && Underway(start, log)
      modifies this
      ensures w.row.status == Restoring && Underway(start, log)
      ensures w == Undo(old(w), inst, nc, nv, o)
      ensures During(w0, w) && Grown(start, log, w0, solo)
    {
      StagedServers(w0, w, nv, nc, o);
      UndoServers(w0, w, nv, nc, o);
      SameServers(Restarted(w0, o), Undo(w, inst, nc, nv, o));
      UndoSteps(w0, w, nv, nc, o);
      Do(DropContainer(w, nc, o.undoContainer), start, w0, solo);
      Do(DropVolume(w, nv, o.undoVolume), start, w0, solo);
      Do(SetRunning(w, inst.cid, true, o.restart), start, w0, solo);
    }

    /** runRestoreContainer: the one-shot container fills the staging volume, or leaves it torn. */
    method RunHelper(nv: VolumeName, o: Calls, ghost start: seq<World>, ghost w0: World, ghost solo: bool)
      returns (ok: bool)
      requires Safe(w0) && Staged(w0, w, nv, None, o.(removeHelper := true)) && (o.stop ==> Quiet(w))
      requires Grown(start, log, w0, solo) && (solo ==> OneServer(w0))
      requires w.row.status == Restoring && Underway(start, log)
      modifies this
      ensures w.row.status == Restoring && Underway(start, log)
      ensures Grown(start, log, w0, solo) && Staged(w0, w, nv, None, o)
      ensures ok == (o.createHelper && o.helperExit) && (ok ==> w.volumes[nv].Cluster?)
      ensures !ok ==> w.volumes[nv] == if o.createHelper then HalfWritten else old(w).volumes[nv]
    {
      ghost var o1 := o.(removeHelper := true);
      ok := false;
      if o.createHelper {
        var helper := w.next;
        AddStaged(w0, w, nv, o1, solo);
        Do(AddContainer(w, nv, false), start, w0, solo);
        FillStaged(w0, w, nv, Some(helper), o1, HalfWritten, solo);
        Do(w.(volumes := w.volumes[nv := HalfWritten]), start, w0, solo);
        if o.helperExit {
          FillStaged(w0, w, nv, Some(helper), o1, Cluster(helper), solo);
          Do(w.(volumes := w.volumes[nv := Cluster(helper)]), start, w0, solo);
        }
        DropStaged(w0, w, nv, helper, o, solo);
        Do(DropContainer(w, Some(helper), o.removeHelper), start, w0, solo);
        ok := o.helperExit;
      }
    }

    /** The staging half of `restore`: staging volume, stop, helper. */
    method Stage(o: Calls, ghost start: seq<World>, ghost w0: World, ghost solo: bool)
      returns (nv: Option<VolumeName>, ok: bool)
      requires Safe(w0) && w == SetStatus(w0, Restoring) && Grown(start, log, w0, solo) && (solo ==> OneServer(w0))
      requires w.row.status == Restoring && Underway(start, log)
      modifies this
      ensures w.row.status == Restoring && Underway(start, log)
      ensures Grown(start, log, w0, solo)
      ensures nv.Some? == (o.args && o.createVolume)
      ensures nv.None? ==> !ok && w == SetStatus(w0, Restoring)
      ensures nv.Some? ==> Staged(w0, w, nv.value, None, o)
      ensures ok == StagingWorks(o) && (ok ==> nv.Some? && w.volumes[nv.value].Cluster?)
    {
      nv, ok := None, false;
      if o.args && o.createVolume {
        nv := Some(w.next);
        Vacate(o, start, w0, solo);
        ok := RunHelper(nv.value, o, start, w0, solo);
      }
    }

    /** Create the staging volume and stop the instance. */
    method Vacate(o: Calls, ghost start: seq<World>, ghost w0: World, ghost solo: bool)
      requires Safe(w0) && w == SetStatus(w0, Restoring) && Grown(start, log, w0, solo) && (solo ==> OneServer(w0))
      requires w.row.status == Restoring && Underway(start, log)
      modifies this
      ensures w.row.status == Restoring && Underway(start, log)
      ensures Grown(start, log, w0, solo) && Staged(w0, w, w0.next, None, o.(removeHelper := true))
    {
      ghost var o1 := o.(removeHelper := true);
      VolumeStaged(w0, o1, solo);
      Do(w.(volumes := w.volumes[w.next := Blank], next := w.next + 1), start, w0, solo);
      StopStaged(w0, w, w0.next, o1, solo);
      Do(SetRunning(w, w.row.cid, false, o.stop), start, w0, solo);
    }

    /** Roll back from a staged world. */
    method Abandon(nv: VolumeName, nc: Option<ContainerId>, inst: Row, o: Calls, ghost start: seq<World>,
                   ghost w0: World, ghost solo: bool)
      requires Safe(w0) && Staged(w0, w, nv, nc, o) && inst == w0.row && Grown(start, log, w0, solo)
      requires solo ==> OneServer(w0) && OneServer(Restarted(w0, o))
      requires w.row.status == Restoring && Underway(start, log)
      modifies this
      ensures w.row.status == Restoring && Underway(start, log)
      ensures During(w0, w) && Grown(start, log, w0, solo) && (Stops(w0, o) ==> RolledBackAnyway(w0, w, o))
      ensures OneServer(w) <==> OneServer(Restarted(w0, o))
      ensures CleanupWorks(o) ==> Returned(w0, w, o)
    {
      if Stops(w0, o) {
        UndoAnyway(w0, w, nv, nc, o);
      }
      if CleanupWorks(o) {
        UndoRestores(w0, w, nv, nc, o);
      }
      UndoServers(w0, w, nv, nc, o);
      SameServers(Restarted(w0, o), Undo(w, inst, nc, nv, o));
      RollBack(inst, nc, nv, o, start, w0, solo);
    }

    /** The swap half: start the new container; none means it did not come up and was rolled back. */
    method Swap(nv: VolumeName, inst: Row, o: Calls, ghost start: seq<World>, ghost w0: World, ghost solo: bool)
      returns (nc: Option<ContainerId>)
      requires Safe(w0) && Staged(w0, w, nv, None, o) && inst == w0.row && Grown(start, log, w0, solo)
      requires solo ==> OneServer(w0) && (!SwapWorks(o) ==> OneServer(Restarted(w0, o)))
      requires w.row.status == Restoring && Underway(start, log)
      modifies this
      ensures w.row.status == Restoring && Underway(start, log)
      ensures During(w0, w) && Grown(start, log, w0, solo)
      ensures nc.Some? == SwapWorks(o)
      ensures nc.Some? ==> Staged(w0, w, nv, nc, o) && w.volumes[nv] == old(w).volumes[nv]
      ensures nc.Some? ==> w.containers[nc.value].running && w.containers[nc.value].volume == nv
      ensures nc.None? ==> (OneServer(w) <==> OneServer(Restarted(w0, o)))
      ensures nc.None? && Stops(w0, o) ==> RolledBackAnyway(w0, w, o)
      ensures nc.None? && CleanupWorks(o) ==> Returned(w0, w, o)
    {
      nc := None;
      if !(o.password && o.createContainer) {
        Abandon(nv, None, inst, o, start, w0, solo);
        return;
      }
      nc := Some(w.next);
      AddStaged(w0, w, nv, o, solo);
      Do(AddContainer(w, nv, false), start, w0, solo);
      StartStaged(w0, w, nv, nc.value, o, o.start, solo);
      Do(SetRunning(w, nc, true, o.start), start, w0, solo);
      if !(o.start && o.ready && o.config) {
        Abandon(nv, nc, inst, o, start, w0, solo);
        nc := None;
      }
    }

    /** Commit the swap, then discard the old container and volume. */
    method Commit(nv: VolumeName, nc: ContainerId, inst: Row, o: Calls, ghost start: seq<World>, ghost w0: World,
                  ghost solo: bool)
      requires Safe(w0) && Staged(w0, w, nv, Some(nc), o) && w.volumes[nv].Cluster? && inst == w0.row
      requires w.containers[nc].running && Grown(start, log, w0, solo) && (solo ==> OneServer(w0))
      requires w.row.status == Restoring && Underway(start, log)
      modifies this
      ensures w.row.status == Restoring && Underway(start, log)
      ensures o.saveVolume ==> Fit(w, w0, solo) && Grown(start, log, w0, solo)
      ensures OneServer(w) <==> o.saveVolume || OneServer(Halted(w0, o.stop, o.removeOld))
      ensures CleanupWorks(o) ==> CommittedExactly(w0, w, nv, nc, o)
      ensures CommittedAnyway(w0, w, o, nv, nc)
    {
      CommitAnyway(w0, w, nv, nc, o);
      if CleanupWorks(o) {
        CommitSwaps(w0, w, nv, nc, o);
      }
      CommitIsFit(w0, w, nv, nc, o, solo);
      CommitOne(w0, w, nv, nc, o);
      Do(SavedRuntime(w, nc, o), start, w0, solo);
      Do(SavedVolume(w, nv, o), start, w0, solo);
      Do(DropContainer(w, inst.cid, o.removeOld), start, w0, solo);
      Do(DropVolume(w, inst.volume, o.dropOld), start, w0, solo);
    }

    /** Swap and, if the new container came up, commit. */
    method Exchange(nv: VolumeName, inst: Row, o: Calls, ghost start: seq<World>, ghost w0: World, ghost solo: bool)
      returns (ok: bool, ghost nc: ContainerId)
      requires Safe(w0) && Staged(w0, w, nv, None, o) && w.volumes[nv].Cluster? && inst == w0.row
      requires Grown(start, log, w0, solo)
      requires solo ==> OneServer(w0) && (!SwapWorks(o) ==> OneServer(Restarted(w0, o)))
      requires w.row.status == Restoring && Underway(start, log)
      modifies this
      ensures w.row.status == Restoring && Underway(start, log)
      ensures o.saveVolume || !ok ==> Fit(w, w0, false) && Grown(start, log, w0, solo)
      ensures !ok ==> During(w0, w) && (Stops(w0, o) ==> RolledBackAnyway(w0, w, o))
      ensures ok ==> CommittedAnyway(w0, w, o, nv, nc)
      ensures !ok && CleanupWorks(o) ==> Returned(w0, w, o)
      ensures OneServer(w) <==> if ok then o.saveVolume || OneServer(Halted(w0, o.stop, o.removeOld))
                                else OneServer(Restarted(w0, o))
      ensures ok == SwapWorks(o) && (ok && CleanupWorks(o) ==> CommittedExactly(w0, w, nv, nc, o))
    {
      nc := 0;
      var swapped := Swap(nv, inst, o, start, w0, solo);
      ok := swapped.Some?;
      if ok {
        nc := swapped.value;
        Commit(nv, swapped.value, inst, o, start, w0, solo);
      }
    }

    /** `restore` for an instance that may be restored, between the wrapper's status writes. */
    method Attempt(inst: Row, o: Calls, ghost start: seq<World>, ghost w0: World, ghost solo: bool)
      returns (ok: bool, ghost nv: VolumeName, ghost nc: ContainerId)
      requires Safe(w0) && o.load && inst == w0.row && inst.role == Standalone && w == SetStatus(w0, Restoring)
      requires Grown(start, log, w0, solo) && (solo ==> OneServer(w0) && OneAfterRestore(w0, o))
      requires w.row.status == Restoring && Underway(start, log)
      modifies this
      ensures w.row.status == Restoring && Underway(start, log)
      ensures o.saveVolume || !ok ==> Grown(start, log, w0, solo)
      ensures ok == (StagingWorks(o) && SwapWorks(o)) && Ended(w0, w, o, ok, nv, nc)
    {
      nv, nc, ok := 0, 0, false;
      var staging, filled := Stage(o, start, w0, solo);
      if staging.None? {
        NotStopped(w0, Restoring, o);
      } else {
        nv := staging.value;
        ok, nc := Conclude(staging.value, filled, inst, o, start, w0, solo);
      }
    }

    /** The rest of `restore` once the staging volume is there and was filled or not. */
    method Conclude(nv: VolumeName, filled: bool, inst: Row, o: Calls, ghost start: seq<World>, ghost w0: World,
                    ghost solo: bool)
      returns (ok: bool, ghost nc: ContainerId)
      requires Safe(w0) && Staged(w0, w, nv, None, o) && (filled ==> w.volumes[nv].Cluster?) && inst == w0.row
      requires Stops(w0, o) && filled == StagingWorks(o)
      requires Grown(start, log, w0, solo) && (solo ==> OneServer(w0) && OneAfterRestore(w0, o))
      requires w.row.status == Restoring && Underway(start, log)
      modifies this
      ensures w.row.status == Restoring && Underway(start, log)
      ensures o.saveVolume || !ok ==> Grown(start, log, w0, solo)
      ensures ok == (filled && SwapWorks(o)) && Ended(w0, w, o, ok, nv, nc)
    {
      ok, nc := false, 0;
      if filled {
        ok, nc := Exchange(nv, inst, o, start, w0, solo);
      } else {
        Abandon(nv, None, inst, o, start, w0, solo);
      }
      if !ok && CleanupWorks(o) {
        ReturnedTidy(w0, w, o);
      }
    }

    /** Restore under the instance mutex.  It commits exactly if the instance is standalone and every
        call that matters works, and leaves what `Ended` says.  Provided the row's new volume can be saved,
        every world it passes through is safe and keeps the original volume's contents, and no two servers
        share the data at any step if and only if the restore is solo.  Until its last step the row says
        restoring. */
    method Restore(o: Calls) returns (r: Outcome, ghost nv: VolumeName, ghost nc: ContainerId)
      requires Safe(w)
      modifies this
      ensures Ended(old(w), w, o, r == Committed, nv, nc)
      ensures o.saveVolume ==> Grown(old(log), log, old(w), SoloRestore(old(w), o))
      ensures o.saveVolume ==> (OneThroughout(old(log), log) <==> SoloRestore(old(w), o))
      ensures r == Refused <==> o.load && old(w).row.role != Standalone
      ensures r == Committed <==> && o.load && old(w).row.role == Standalone && o.args && o.createVolume
                                  && o.createHelper && o.helperExit && o.password && o.createContainer
                                  && o.start && o.ready && o.config
      ensures w.row.status == if r == Committed then Running else Errored
      ensures |log| > |old(log)| && Underway(old(log), log[..|log| - 1])
      ensures r == Refused ==> w == SetStatus(old(w), Errored)
    {
      var inst := w.row;
      if o.load && inst.role == Standalone {
        var ok;
        ok, nv, nc := Admitted(inst, o);
        r := if ok then Committed else RolledBack;
      } else {
        NotStopped(w, Errored, o);
        r, nv, nc := if o.load then Refused else RolledBack, 0, 0;
        Do(SetStatus(w, Errored), log, w, SoloRestore(w, o));
        FirstEntry(old(log), log, old(w), o);
      }
    }

    /** The restore of an instance that may be restored, with the wrapper's status writes around it. */
    method Admitted(inst: Row, o: Calls) returns (ok: bool, ghost nv: VolumeName, ghost nc: ContainerId)
      requires Safe(w) && o.load && inst == w.row && inst.role == Standalone
      modifies this
      ensures Ended(old(w), w, o, ok, nv, nc) && ok == (StagingWorks(o) && SwapWorks(o))
      ensures o.saveVolume ==> Grown(old(log), log, old(w), SoloRestore(old(w), o))
      ensures o.saveVolume ==> (OneThroughout(old(log), log) <==> SoloRestore(old(w), o))
      ensures w.row.status == if ok then Running else Errored
      ensures |log| > |old(log)| && Underway(old(log), log[..|log| - 1])
    {
      ghost var w0, solo := w, SoloRestore(w, o);
      SoloIsOne(w0, o);
      w, log := SetStatus(w, Restoring), log + [SetStatus(w, Restoring)];
      ghost var first := log;
      assert Underway(first, log);
      ok, nv, nc := Attempt(inst, o, first, w0, solo);
      Close(o, ok, old(log), first, w0, nv, nc);
    }

    /** The wrapper's last status write. */
    method Close(o: Calls, ok: bool, ghost start: seq<World>, ghost first: seq<World>, ghost w0: World,
                 ghost nv: VolumeName, ghost nc: ContainerId)
      requires Safe(w0) && Ended(w0, w, o, ok, nv, nc) && first == start + [SetStatus(w0, Restoring)]
      requires o.saveVolume || !ok ==> Grown(first, log, w0, SoloRestore(w0, o))
      requires Underway(first, log)
      modifies this
      ensures |log| > |start| && Underway(start, log[..|log| - 1])
      ensures Ended(w0, w, o, ok, nv, nc)
      ensures o.saveVolume ==> Grown(start, log, w0, SoloRestore(w0, o))
      ensures o.saveVolume ==> (OneThroughout(start, log) <==> SoloRestore(w0, o))
      ensures w.row.status == if ok then Running else Errored
    {
      var last := SetStatus(w, if ok then Running else Errored);
      UnderwayAll(start, first, log, w0, last);
      LastStatus(w0, w, last.row.status, o, ok, nv, nc);
      w, log := last, log + [last];
      if o.saveVolume {
        LastEntry(start, first, log, w0, o);
      }
    }

    /** SetVisibility: the container is replaced on the same data; no volume is ever touched.  A flip
        that is refused or has nothing to do changes nothing; one that cannot replace the container
        keeps to the flag; one whose replacement starts ends with the row naming it; and one whose
        replacement fails puts the flag back and is left running or stopped, never in error: running
        exactly if the replacement was never created and recovery could use the name.  A row left
        running names a running container on the instance's data.  No two servers share the data at any
        step if and only if the flip is solo. */
    method Flip(public: bool, f: FlipCalls)
      requires Safe(w)
      modifies this
      ensures Safe(w) && w.volumes == old(w).volumes && w.row.volume == old(w).row.volume
      ensures Grown(old(log), log, old(w), SoloFlip(old(w), f))
      ensures Flips(old(w), public, f) ==> (OneThroughout(old(log), log) <==> SoloFlip(old(w), f))
      ensures !Flips(old(w), public, f) ==> log == old(log)
      ensures FlipExactly(old(w), w, public, f) && FlipDoes(old(w), w, public, f)
    {
      if w.row.role != Standalone || !(w.row.status == Running || w.row.status == Stopped) || w.row.public == public
         || !f.savePublic {
        return;
      }
      SaveFlag(public, f);
      FlipIs(old(w), public, f);
    }

    /** An admitted flip: save the flag, then replace the container if there is one to replace. */
    method SaveFlag(public: bool, f: FlipCalls)
      requires Safe(w) && Flips(w, public, f)
      modifies this
      ensures Safe(w) && w == FlipWorld(old(w), public, f) && Grown(old(log), log, old(w), SoloFlip(old(w), f))
      ensures OneThroughout(old(log), log) <==> SoloFlip(old(w), f)
    {
      ghost var w0, solo := w, SoloFlip(w, f);
      FlagSolo(w0, public, f);
      w := w.(row := w.row.(public := public));
      log := log + [w];
      ghost var first := log;
      if w.row.status == Running && w.row.cid.Some? && f.password {
        Rebind(f, first, w0, solo);
      }
      FlipIs(w0, public, f);
      FlipEntries(old(log), first, log, w0, w, public, f);
    }

    /** The part of the flip after the flag is saved. */
    method Rebind(f: FlipCalls, ghost start: seq<World>, ghost w0: World, ghost solo: bool)
      requires Safe(w) && Grown(start, log, w0, solo) && w.row.cid.Some?
      requires OnVolumes(w, w0)
      requires solo ==> OneServer(w) && (Starts(w, f) ==> NoServer(Stripped(w, f)))
      modifies this
      ensures Safe(w) && w == Rebound(old(w), f)
      ensures Grown(start, log, w0, solo) && |log| > 0 && log[|log| - 1] == w
    {
      StrippedIs(w, f);
      StrippedServers(w, f);
      var public := w.row.public;
      ghost var w1 := w;
      var ok := Replace(f, start, w0, solo);
      if ok {
        SameServers(w, SetStatus(w, if f.ready && f.config then Running else Errored));
        Do(SetStatus(w, if f.ready && f.config then Running else Errored), start, w0, solo);
      } else {
        ReplacedServers(w1, f);
        Recover(!public, f, start, w0, solo);
      }
    }

    /** Stop and remove the old container, then create and start its replacement on the same data. */
    method Replace(f: FlipCalls, ghost start: seq<World>, ghost w0: World, ghost solo: bool) returns (ok: bool)
      requires Safe(w) && Grown(start, log, w0, solo) && w.row.cid.Some?
      requires OnVolumes(w, w0)
      requires solo ==> OneServer(w) && (Creates(w, f) && f.start ==> NoServer(Stripped(w, f)))
      modifies this
      ensures Safe(w) && Grown(start, log, w0, solo)
      ensures ok == (Creates(old(w), f) && f.start)
      ensures w == AfterReplace(old(w), f) && (solo ==> OneServer(w))
    {
      StrippedIs(w, f);
      StrippedServers(w, f);
      FewerIfStopped(w, f.stop);
      Do(SetRunning(w, w.row.cid, false, f.stop), start, w0, solo);
      Do(DropContainer(w, w.row.cid, f.remove), start, w0, solo);
      ok := f.create && NameFree(w);
      if ok {
        Create(f.start, start, w0, solo);
      }
      ok := ok && f.start;
    }

    /** Create a container on the instance's data, record it and start it. */
    method Create(ok: bool, ghost start: seq<World>, ghost w0: World, ghost solo: bool)
      requires Safe(w) && Grown(start, log, w0, solo) && NameFree(w)
      requires OnVolumes(w, w0)
      requires solo ==> OneServer(w) && (ok ==> NoServer(w))
      modifies this
      ensures Safe(w) && w == WithContainer(old(w), ok) && (solo ==> OneServer(w))
      ensures Grown(start, log, w0, solo)
    {
      NewIsFit(w, w0, ok, solo);
      Do(AddContainer(w, w.row.volume, true), start, w0, solo);
      Do(w.(row := w.row.(cid := Some(w.next - 1))), start, w0, solo);
      Do(SetRunning(w, w.row.cid, true, ok), start, w0, solo);
    }

    /** recoverFailedFlip: put the flag back and recreate the container on the original binding.  The
        name may be taken: by the original that was not removed, or by a replacement that was created
        but did not start. */
    method Recover(public: bool, f: FlipCalls, ghost start: seq<World>, ghost w0: World, ghost solo: bool)
      requires Safe(w) && Grown(start, log, w0, solo)
      requires OnVolumes(w, w0)
      requires solo ==> OneServer(w) && (f.recreate && f.restart && NameFree(w) ==> NoServer(w))
      modifies this
      ensures Safe(w) && w == Recovered(old(w), public, f)
      ensures w.row.status == Running <==> f.recreate && f.restart && NameFree(old(w))
      ensures w.row.status == Running ==> Serving(w)
      ensures Grown(start, log, w0, solo) && |log| > 0 && log[|log| - 1] == w
    {
      FlagServers(w0, w, public);
      Do(w.(row := w.row.(public := public)), start, w0, solo);
      var made := f.recreate && NameFree(w);
      if made {
        Create(f.restart, start, w0, solo);
      }
      StatusOnly(w0, w, if made && f.restart then Running else Stopped);
      Do(SetStatus(w, if made && f.restart then Running else Stopped), start, w0, solo);
    }

    /** One operation under the mutex, in which the control plane may die after any step: the world
        is then what the log says it was at that point.  A solo operation keeps the servers apart
        wherever it dies. */
    method Serve(op: Op)
      requires Safe(w) && (op.RestoreOp? ==> op.calls.saveVolume)
      modifies this
      ensures Safe(w) && old(log) <= log && forall k :: |old(log)| <= k < |log| ==> Safe(log[k])
      ensures Solo(old(w), op) ==> OneThroughout(old(log), log)
      ensures op.dies.Some? ==> |log| <= |old(log)| + op.dies.value
      ensures op.dies.Some? && |log| == |old(log)| + op.dies.value ==>
                w == if op.dies.value == 0 then old(w) else log[|log| - 1]
    {
      var before, mark := w, |log|;
      Perform(op);
      if op.dies.Some? && mark + op.dies.value <= |log| {
        log := log[..mark + op.dies.value];
        w := if op.dies.value == 0 then before else log[|log| - 1];
      }
    }

    /** One operation to its end. */
    method Perform(op: Op)
      requires Safe(w) && (op.RestoreOp? ==> op.calls.saveVolume)
      modifies this
      ensures Safe(w) && old(log) <= log && forall k :: |old(log)| <= k < |log| ==> Safe(log[k])
      ensures Solo(old(w), op) ==> OneThroughout(old(log), log)
    {
      match op {
        case RestoreOp(calls, _) => var r; ghost var nv, nc; r, nv, nc := Restore(calls);
        case FlipOp(public, calls, _) => Flip(public, calls);
      }
    }

    /** Restore crash safety: along any mutex-serialised sequence of restores and flips, dying anywhere
        and starting over any number of times, the volume the row names always exists, as long as the
        row's volume column can be written; and it holds a complete cluster as long as no two servers
        have shared the instance's data. */
    method ServeAll(ops: seq<Op>)
      requires Safe(w) && log == [] && forall k :: 0 <= k < |ops| && ops[k].RestoreOp? ==> ops[k].calls.saveVolume
      modifies this
      ensures forall k :: 0 <= k < |log| ==> Housed(log[k])
      ensures OneServer(old(w)) ==> forall k :: 0 <= k < |log| && OneUpTo(log, k) ==> Complete(log[k])
      ensures Housed(w) && (OneServer(old(w)) && OneThroughout([], log) ==> Complete(w))
    {
      for n := 0 to |ops|
        invariant Safe(w) && forall k :: 0 <= k < |log| ==> Safe(log[k])
      {
        Serve(ops[n]);
      }
    }

    /** Two restores in a row, every write and every removal working: the first leaves the row naming
        the container it removed exactly if its last inspection failed, and exactly then the second
        leaves the first one's container and volume behind. */
    method RestoreTwice(o1: Calls, o2: Calls)
      returns (ghost nv1: VolumeName, ghost nc1: ContainerId, ghost nv2: VolumeName, ghost nc2: ContainerId)
      requires Safe(w) && Tidy(w) && w.row.role == Standalone
      requires o1.load && StagingWorks(o1) && SwapWorks(o1) && CleanupWorks(o1) && o1.saveVolume
      requires o2.load && StagingWorks(o2) && SwapWorks(o2) && CleanupWorks(o2) && o2.saveVolume
      modifies this
      ensures Safe(w) && w.row.volume == nv2 && nv1 !in old(w).volumes && nv2 !in old(w).volumes && nv1 != nv2
      ensures w.volumes.Keys == old(w).volumes.Keys - {old(w).row.volume} + {nv2} + (if o1.inspect then {} else {nv1})
      ensures nc1 in w.containers <==> !o1.inspect
      ensures nc1 in w.containers ==> w.containers[nc1].volume == nv1 && w.row.cid != Some(nc1)
    {
      ghost var w0 := w;
      var r;
      r, nv1, nc1 := Restore(o1);
      ghost var w1 := w;
      r, nv2, nc2 := Restore(o2);
      SecondSwap(w0, w1, w, nv1, nc1, nv2, nc2, o1, o2);
    }

    /** A restore and then a flip, every write and every removal working: two servers run on the
        instance's data afterwards exactly if the restore's last inspection failed.  The flip then
        removes a container that is already gone and starts its replacement beside the restored one. */
    method RestoreThenFlip(o: Calls, public: bool, f: FlipCalls) returns (ghost nv: VolumeName, ghost nc: ContainerId)
      requires Safe(w) && Tidy(w) && w.row.role == Standalone && w.row.cid.Some? && w.row.public != public
      requires forall c :: c in w.containers && w.containers[c].named ==> w.row.cid == Some(c)
      requires o.load && StagingWorks(o) && SwapWorks(o) && CleanupWorks(o) && o.saveVolume
      requires f.savePublic && f.password && f.stop && f.remove && f.create && f.start && f.ready && f.config
      modifies this
      ensures w.row.status == Running && Serving(w) && (OneServer(w) <==> o.inspect)
      ensures !o.inspect ==> Serves(w, nc) && w.row.cid != Some(nc)
    {
      ghost var w0 := w;
      var r;
      r, nv, nc := Restore(o);
      ghost var w1 := w;
      Flip(public, f);
      FlipAfterSwap(w0, w1, w, nv, nc, o, public, f);
    }

    /** One operation of a run in which nothing dies: a tidy world stays tidy, and the instance's data
        volume is the only one that was exchanged. */
    method ServeTidy(op: Op)
      requires Safe(w) && Tidy(w) && Orderly(op)
      modifies this
      ensures Safe(w) && Tidy(w) && NetExchange(old(w), w)
      ensures Grown(old(log), log, old(w), true)
    {
      TidySolo(w, op);
      match op {
        case RestoreOp(calls, _) =>
          ghost var w0 := w;
          var r;
          ghost var nv, nc;
          r, nv, nc := Restore(calls);
          if r == Committed {
            SwapIsNet(w0, w, nv, nc, calls);
          }
        case FlipOp(public, flips, _) => Flip(public, flips);
      }
    }

    /** Along any such run every committed restore exchanges exactly one volume: besides the instance's
        own, the volumes at the end are those of the beginning.  At every step the row's volume holds a
        complete cluster and at most one server runs on it. */
    method ServeAllTidy(ops: seq<Op>)
      requires Safe(w) && Tidy(w) && log == [] && forall k :: 0 <= k < |ops| ==> Orderly(ops[k])
      modifies this
      ensures Safe(w) && Tidy(w) && NetExchange(old(w), w)
      ensures forall k :: 0 <= k < |log| ==> Safe(log[k]) && OneServer(log[k])
    {
      for n := 0 to |ops|
        invariant Safe(w) && Tidy(w) && NetExchange(old(w), w)
        invariant forall k :: 0 <= k < |log| ==> Safe(log[k]) && OneServer(log[k])
      {
        ServeTidy(ops[n]);
      }
    }
  }

  /** No two servers share the data while the operation runs. */
  ghost predicate Solo(w: World, op: Op) {
    match op
    case RestoreOp(o, _) => SoloRestore(w, o)
    case FlipOp(public, f, _) => !Flips(w, public, f) || SoloFlip(w, f)
  }

  /** No two servers have shared the data up to entry `k`. */
  ghost predicate OneUpTo(log: seq<World>, k: nat)
    requires k < |log|
  {
    forall j :: 0 <= j <= k ==> OneServer(log[j])
  }

  lemma TidySolo(w: World, op: Op)
    requires Safe(w) && Tidy(w) && Orderly(op)
    ensures Solo(w, op)
    ensures op.FlipOp? ==> SoloFlip(w, op.flips)
  {
    assert Calm(w) && OneServer(w);
    if op.FlipOp? && w.row.cid.Some? {
      StrippedIs(w, op.flips);
    }
  }

  lemma LeftAfterSwap(w: World, w': World, nv: VolumeName, nc: ContainerId, o: Calls, f: FlipCalls)
    requires Safe(w) && Safe(w') && w.row.cid.Some? && Swapped(w, w', nv, nc, o) && o.saveVolume && f.stop && f.remove
    requires forall c :: c in w.containers && w.containers[c].named ==> w.row.cid == Some(c)
    ensures FreesName(w', f) && w'.row.cid.Some?
    ensures NoServer(Stripped(w', f)) <==> o.inspect
    ensures !o.inspect ==> Serves(Stripped(w', f), nc) && nc < w'.next
  {
    StrippedIs(w', f);
    assert forall c :: c in w'.containers && c != nc ==> c in w.containers && w'.containers[c].volume < w.next;
    if o.inspect {
      assert nc !in Stripped(w', f).containers;
    } else {
      assert w'.row.cid == w.row.cid && w.row.cid != Some(nc);
      assert Stripped(w', f).containers == w'.containers;
      assert Serves(Stripped(w', f), nc);
    }
  }

  lemma FlipAfterSwap(w: World, w': World, u: World, nv: VolumeName, nc: ContainerId, o: Calls, public: bool,
                      f: FlipCalls)
    requires Safe(w) && Safe(w') && w.row.cid.Some? && Swapped(w, w', nv, nc, o) && o.saveVolume
    requires w'.row.status == Running && Flips(w', public, f) && FlipExactly(w', u, public, f)
    requires forall c :: c in w.containers && w.containers[c].named ==> w.row.cid == Some(c)
    requires f.password && f.stop && f.remove && f.create && f.start && f.ready && f.config
    ensures u.row.status == Running && Serving(u) && (OneServer(u) <==> o.inspect)
    ensures !o.inspect ==> Serves(u, nc) && u.row.cid != Some(nc)
  {
    LeftAfterSwap(w, w', nv, nc, o, f);
  }

  /** Nothing dies, the row's columns can be saved, the last inspection and every removal work. */
  predicate Orderly(op: Op) {
    match op
    case RestoreOp(o, dies) => dies.None? && o.saveVolume && o.inspect && CleanupWorks(o)
    case FlipOp(_, f, dies) => dies.None? && f.remove
  }

  /** The same volumes apart from the one the row names. */
  ghost predicate NetExchange(w: World, w': World) {
    w'.volumes.Keys - {w'.row.volume} == w.volumes.Keys - {w.row.volume}
  }

  lemma SwapIsNet(w: World, w': World, nv: VolumeName, nc: ContainerId, o: Calls)
    requires Swapped(w, w', nv, nc, o) && o.saveVolume
    ensures NetExchange(w, w')
  {
  }

  lemma SecondSwap(w0: World, w1: World, w2: World, nv1: VolumeName, nc1: ContainerId, nv2: VolumeName,
                   nc2: ContainerId, o1: Calls, o2: Calls)
    requires Safe(w0) && Tidy(w0) && o1.saveVolume && o2.saveVolume
    requires CommittedExactly(w0, w1, nv1, nc1, o1) && CommittedExactly(w1, w2, nv2, nc2, o2)
    ensures w2.row.volume == nv2 && nv1 !in w0.volumes && nv2 !in w0.volumes && nv1 != nv2
    ensures w2.volumes.Keys == w0.volumes.Keys - {w0.row.volume} + {nv2} + (if o1.inspect then {} else {nv1})
    ensures nc1 in w2.containers <==> !o1.inspect
    ensures nc1 in w2.containers ==> w2.containers[nc1].volume == nv1 && w2.row.cid != Some(nc1)
  {
    assert Swapped(w0, w1, nv1, nc1, o1);
    if o1.inspect {
      assert Swapped(w1, w2, nv2, nc2, o2);
    } else {
      assert Leaked(w1, w2, nv2, nc2, o2);
    }
  }
}
