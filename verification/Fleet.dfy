/** Entities shared by the failover protocol and the code around it: the rows of the meta
    database, the physical containers and volumes, and the router's pool.

    Instance ids are numbers.  A container id is the index of the container in the order of
    creation, so ids are never reused; `None` stands for the empty container id. */
module Fleet {
  import opened Optional

  type InstanceId = nat
  type ContainerId = nat

  datatype Role = Primary | Replica

  datatype Status = Provisioning | Running | Stopped | Restoring | Destroying | Errored

  datatype ClusterStatus = ClusterProvisioning | ClusterRunning | ClusterDegraded | ClusterError

  /** One row of the `instances` table, as far as failover and reconciliation read it. */
  datatype Row = Row(role: Role, cid: Option<ContainerId>, status: Status)

  /** What an instance's data volume holds.  A server started on the volume is a standby for
      `Standby`, and accepts writes for `Writable`; `Promoting` is a standby that has been told
      to promote and may open for writes at any later moment, whoever is watching. */
  datatype Volume = Absent | Empty | Torn | Standby | Promoting | Writable

  /** The pool a running router was configured with. */
  datatype Router = Router(primary: InstanceId, replicas: seq<InstanceId>, primaryReads: bool)

  datatype Container = Container(id: ContainerId, running: bool)

  /** The physical fleet and the meta-database rows of one cluster.  Each member has one fixed
      container name, and Docker keeps at most one container of a name, so the existing main
      containers are keyed by instance.  `born[c]` is the instance container `c` was created for. */
  datatype World = World(
    order: seq<InstanceId>,
    rows: map<InstanceId, Row>,
    volumes: map<InstanceId, Volume>,
    born: seq<InstanceId>,
    containers: map<InstanceId, Container>,
    status: ClusterStatus,
    primary: Option<InstanceId>,
    router: Option<Router>)

  /** Container `c` exists. */
  predicate Exists(w: World, c: ContainerId) {
    c < |w.born| && w.born[c] in w.containers && w.containers[w.born[c]].id == c
  }

  /** The instance has a container that accepts writes now or may do so without any further command. */
  predicate Writer(w: World, i: InstanceId) {
    i in w.containers && i in w.volumes && (w.volumes[i] == Promoting || w.volumes[i] == Writable)
  }

  /** No split brain: no two existing containers are writable primaries. */
  ghost predicate SingleWriter(w: World) {
    forall i, j :: Writer(w, i) && Writer(w, j) ==> i == j
  }

  /** At most one member row has role primary. */
  ghost predicate OnePrimaryRow(rows: map<InstanceId, Row>) {
    forall i, j :: i in rows && j in rows && rows[i].role == Primary && rows[j].role == Primary ==> i == j
  }

  ghost predicate Distinct<T>(s: seq<T>) {
    forall a, b :: 0 <= a < b < |s| ==> s[a] != s[b]
  }

  /** The members with role replica, in listing order (internal/failover/failover.go:128). */
  function ReplicasOf(rows: map<InstanceId, Row>, order: seq<InstanceId>): (r: seq<InstanceId>)
    ensures forall i :: i in r <==> i in order && i in rows && rows[i].role == Replica
    ensures Distinct(order) ==> Distinct(r)
  {
    if order == [] then []
    else
      var rest := ReplicasOf(rows, order[..|order| - 1]);
      var i := order[|order| - 1];
      assert order == order[..|order| - 1] + [i];
      if i in rows && rows[i].role == Replica then rest + [i] else rest
  }

  /** The last listed member with role primary, if any. */
  function PrimaryOf(rows: map<InstanceId, Row>, order: seq<InstanceId>): (r: Option<InstanceId>)
    ensures r.Some? ==> r.value in order && r.value in rows && rows[r.value].role == Primary
    ensures r.None? ==> forall i :: i in order && i in rows ==> rows[i].role != Primary
  {
    if order == [] then None
    else
      var i := order[|order| - 1];
      assert order == order[..|order| - 1] + [i];
      if i in rows && rows[i].role == Primary then Some(i)
      else PrimaryOf(rows, order[..|order| - 1])
  }

  /** The replicas a failover re-clones: everyone but the new primary. */
  function Survivors(replicas: seq<InstanceId>, newPrimary: InstanceId): (r: seq<InstanceId>)
    ensures forall i :: i in r <==> i in replicas && i != newPrimary
    ensures Distinct(replicas) ==> Distinct(r)
  {
    if replicas == [] then []
    else
      var rest := Survivors(replicas[..|replicas| - 1], newPrimary);
      var i := replicas[|replicas| - 1];
      assert replicas == replicas[..|replicas| - 1] + [i];
      assert Distinct(replicas) ==> i !in replicas[..|replicas| - 1];
      if i == newPrimary then rest else rest + [i]
  }
}
