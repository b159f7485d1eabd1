/** Cluster creation (internal/clusterctl/service.go:84-204): it establishes the state from which
    the failover protocol starts. */
module ClusterSetup {
  import opened Optional
  import opened Fleet
  import opened FailoverProtocol
  import RouterPool

  const MAX_REPLICAS := 9

  /** The rows Create inserts: the first member is the primary, the others are replicas. */
  ghost predicate Inserted(order: seq<InstanceId>, rows: map<InstanceId, Row>) {
    && order != [] && Distinct(order) && (forall i :: i in order <==> i in rows)
    && forall k :: 0 <= k < |order| ==>
         rows[order[k]] == Row(if k == 0 then Primary else Replica, None, Provisioning)
  }

  /** Create: the number of replicas is checked, then the member rows are inserted one by one; an
      insert that fails deletes the cluster row and with it every member.  `ids` are the ids the
      inserts return, `valid` the validation of names, `fails` the insert that fails, if any. */
  method Create(replicas: int, ids: seq<InstanceId>, valid: bool, fails: Option<nat>)
    returns (ok: bool, order: seq<InstanceId>, rows: map<InstanceId, Row>)
    requires |ids| == 10 && Distinct(ids)
    ensures ok <==> valid && 0 <= replicas <= 9 && (fails.Some? ==> fails.value > replicas)
    ensures ok ==> order == ids[..replicas + 1] && Inserted(order, rows)
    ensures !ok ==> order == [] && rows == map[]
  {
    ok, order, rows := false, [], map[];
    if !valid || replicas < 0 || replicas > MAX_REPLICAS {
      return;
    }
    for k := 0 to replicas + 1
      invariant order == ids[..k] && (fails.Some? ==> fails.value >= k)
      invariant forall i :: i in order <==> i in rows
      invariant forall m :: 0 <= m < k ==>
                  rows[order[m]] == Row(if m == 0 then Primary else Replica, None, Provisioning)
    {
      if fails.Some? && fails.value == k {
        order, rows := [], map[];
        return;
      }
      rows := rows[ids[k] := Row(if k == 0 then Primary else Replica, None, Provisioning)];
      order := order + [ids[k]];
    }
    ok := true;
  }

  /** The members in `done` are up, the primary `p` on a writable volume and the replicas on standby
      volumes; the others have no container yet. */
  ghost predicate Built(w: World, p: InstanceId, done: set<InstanceId>) {
    && Shaped(w, p) && w.containers.Keys == done && done <= w.rows.Keys
    && AllUp(w, p, done)
    && (forall i :: i in w.rows && i !in done ==> w.volumes[i] == Absent)
  }

  ghost predicate Shaped(w: World, p: InstanceId) {
    && OrderOk(w.order, w.rows.Keys) && p in w.rows && w.volumes.Keys == w.rows.Keys
    && (forall i :: i in w.rows ==> w.rows[i].role == if i == p then Primary else Replica)
  }

  ghost predicate AllUp(w: World, p: InstanceId, done: set<InstanceId>) {
    forall i :: i in done ==> Up(w, i, if i == p then Writable else Standby)
  }

  /** The instance's recorded container exists and mounts a volume with these contents. */
  ghost predicate Up(w: World, i: InstanceId, v: Volume) {
    && i in w.rows && i in w.volumes && i in w.containers
    && w.volumes[i] == v && w.rows[i].cid == Some(w.containers[i].id) && w.rows[i].status == Running
    && w.containers[i].id < |w.born| && w.born[w.containers[i].id] == i
  }

  /** A successful Provision or ProvisionReplica of one member. */
  function BringUp(w: World, i: InstanceId, v: Volume): World {
    if i !in w.rows then w
    else
      w.(rows := w.rows[i := w.rows[i].(cid := Some(|w.born|), status := Running)],
         volumes := w.volumes[i := v], born := w.born + [i],
         containers := w.containers[i := Container(|w.born|, true)])
  }

  /** What a failed member leaves behind.  Its cleanup is best effort and so are its row writes, so a
      container that was made may be kept, running or not, its id may be recorded or not, and the
      volume and the status may be anything the provisioning got to. */
  datatype Leftover = Leftover(volume: Volume, made: bool, kept: bool, running: bool, recorded: bool, status: Status)

  /** A base backup only makes standbys: what a failed replica leaves accepts no writes. */
  predicate Harmless(left: Leftover) {
    left.volume != Promoting && left.volume != Writable
  }

  function Fail(w: World, i: InstanceId, left: Leftover): World {
    if i !in w.rows then w
    else
      var c := |w.born|;
      w.(rows := w.rows[i := w.rows[i].(cid := if left.made && left.recorded then Some(c)
          else None, status := left.status)],
         volumes := w.volumes[i := left.volume], born := if left.made then w.born + [i] else w.born,
         containers := if left.made && left.kept then w.containers[i := Container(c, left.running)] else w.containers)
  }

  ghost function Prefix(order: seq<InstanceId>, k: nat): set<InstanceId>
    requires k <= |order|
  {
    set i | i in order[..k]
  }

  lemma PrefixGrows(order: seq<InstanceId>, k: nat)
    requires k < |order| && Distinct(order)
    ensures order[k] !in Prefix(order, k) && Prefix(order, k + 1) == Prefix(order, k) + {order[k]}
  {
    assert order[..k + 1] == order[..k] + [order[k]];
  }

  lemma BuildNext(w: World, p: InstanceId, done: set<InstanceId>, i: InstanceId)
    requires Built(w, p, done) && i in w.rows && i !in done
    ensures Built(BringUp(w, i, if i == p then Writable else Standby), p, done + {i})
  {
    var v := if i == p then Writable else Standby;
    ShapeStays(w, p, i, v);
    AllUpGrows(w, p, done, i, v);
  }

  lemma ShapeStays(w: World, p: InstanceId, i: InstanceId, v: Volume)
    requires Shaped(w, p) && i in w.rows
    ensures Shaped(BringUp(w, i, v), p)
  {
    assert BringUp(w, i, v).rows.Keys == w.rows.Keys;
  }

  lemma AllUpGrows(w: World, p: InstanceId, done: set<InstanceId>, i: InstanceId, v: Volume)
    requires AllUp(w, p, done) && i in w.rows && i !in done && v == if i == p then Writable else Standby
    ensures AllUp(BringUp(w, i, v), p, done + {i})
  {
    forall j | j in done ensures Up(BringUp(w, i, v), j, if j == p then Writable else Standby) {
      UpStays(w, j, if j == p then Writable else Standby, i, v);
    }
  }

  lemma UpStays(w: World, j: InstanceId, u: Volume, i: InstanceId, v: Volume)
    requires Up(w, j, u) && i != j
    ensures Up(BringUp(w, i, v), j, u)
  {
  }

  /** Along the way only the primary can accept writes. */
  lemma BuiltIsSafe(w: World, p: InstanceId, done: set<InstanceId>)
    requires Built(w, p, done)
    ensures Sound(w)
  {
    forall i | Writer(w, i) ensures i == p {
      assert Up(w, i, if i == p then Writable else Standby);
    }
  }

  lemma {:induction false} TailIsReplicas(rows: map<InstanceId, Row>, order: seq<InstanceId>)
    requires order != [] && FirstIsPrimary(rows, order)
    ensures ReplicasOf(rows, order) == order[1..]
    decreases |order|
  {
    var front, last := order[..|order| - 1], order[|order| - 1];
    if front != [] {
      TailIsReplicas(rows, front);
      TailSnoc(order);
    }
  }

  lemma TailSnoc(order: seq<InstanceId>)
    requires |order| > 1
    ensures order[1..] == order[..|order| - 1][1..] + [order[|order| - 1]]
  {
  }

  predicate FirstIsPrimary(rows: map<InstanceId, Row>, order: seq<InstanceId>) {
    forall m :: 0 <= m < |order| ==> order[m] in rows && rows[order[m]].role == if m == 0 then Primary else Replica
  }

  lemma FirstOfBuilt(w: World, p: InstanceId, done: set<InstanceId>)
    requires Built(w, p, done) && w.order != [] && w.order[0] == p
    ensures FirstIsPrimary(w.rows, w.order)
  {
    assert Distinct(w.order);
  }

  /** With every member up and the router started over them, the cluster is provisioned. */
  lemma BuiltIsProvisioned(w: World, p: InstanceId)
    requires Built(w, p, w.rows.Keys) && w.status == ClusterRunning && w.primary == Some(p)
    requires w.order != [] && p == w.order[0] && w.router == Some(RouterPool.Pool(p, w.order[1..]))
    ensures Provisioned(w, p)
  {
    FirstOfBuilt(w, p, w.rows.Keys);
    TailIsReplicas(w.rows, w.order);
    forall i | i in w.rows ensures Up(w, i, if i == p then Writable else Standby) {
    }
  }

  /** Outcomes of the calls of one provisioning; `fails` is the first member that fails, if any, `left`
      what that one leaves behind, and `saveStatus` the write of the cluster's final status. */
  datatype Calls = Calls(fails: Option<nat>, left: Leftover, saveStatus: bool, setPrimary: bool, password: bool,
                         router: bool, setRouter: bool)

  /** Some member before the n-th fails. */
  predicate Failing(o: Calls, n: nat) {
    o.fails.Some? && o.fails.value < n
  }

  /** Everything that has to work. */
  predicate AllWork(o: Calls, n: nat) {
    !Failing(o, n) && o.setPrimary && o.password && o.router && o.setRouter
  }

  class Service {
    var w: World

    constructor (w0: World)
      ensures w == w0
    {
      w := w0;
    }

    /** Provision: primary, replicas, router, in that order; the first error ends it with the cluster
        in error, if that can be written.  It succeeds exactly if every call does, and then the failover
        protocol starts from a provisioned cluster; whatever fails, and whatever a failed member leaves
        behind, there is at most one writer and one primary row. */
    method Provision(o: Calls) returns (ok: bool)
      requires w.order != [] && Built(w, w.order[0], {}) && w.router.None? && (Failing(o, 1) || Harmless(o.left))
      modifies this
      ensures w.order == old(w).order && (ok <==> AllWork(o, |w.order|) && o.saveStatus)
      ensures ok ==> Provisioned(w, w.order[0]) && Initial(State(w, Idle, NoPass))
      ensures !ok ==> w.status == if o.saveStatus then ClusterError else old(w).status
      ensures Sound(w) && StoppedAt(old(w), w, w.order[0], o)
    {
      ok := Members(o);
      if ok {
        ghost var mid := w;
        ok := o.password && o.router;
        if ok {
          var router := RouterPool.Configure(w.order[0], w.order[1..]);
          w := w.(router := Some(router));
        }
        ok := ok && o.setRouter;
        ClusterColumns(mid, w, w.order[0], w.rows.Keys);
        ColumnsAside(old(w), mid, w, w.order[0], o);
      }
      ghost var mid := w;
      if o.saveStatus {
        w := w.(status := if ok then ClusterRunning else ClusterError);
      }
      SameWriters(mid, w);
      ColumnsAside(old(w), mid, w, w.order[0], o);
      ok := ok && o.saveStatus;
      if ok {
        ClusterColumns(mid, w, w.order[0], w.rows.Keys);
        BuiltIsProvisioned(w, w.order[0]);
      }
    }

    /** The members, in order. */
    method Members(o: Calls) returns (ok: bool)
      requires w.order != [] && Built(w, w.order[0], {}) && (Failing(o, 1) || Harmless(o.left))
      modifies this
      ensures w.order == old(w).order && w.router == old(w).router && w.status == old(w).status
      ensures ok <==> !Failing(o, |w.order|) && o.setPrimary
      ensures ok ==> Built(w, w.order[0], w.rows.Keys) && w.primary == Some(w.order[0])
      ensures Sound(w) && StoppedAt(old(w), w, w.order[0], o)
    {
      var order, p := w.order, w.order[0];
      assert Prefix(order, 0) == {};
      ghost var w0 := w;
      NoneReached(w0, p);
      ok := First(order, p, o);
      if ok {
        PrefixIsAll(order, w.rows.Keys);
        ok := Replicas(order, p, o, w0);
      }
    }

    /** The primary, and the cluster row that names it. */
    method First(order: seq<InstanceId>, p: InstanceId, o: Calls) returns (ok: bool)
      requires w.order == order && order != [] && p == order[0] && Built(w, p, Prefix(order, 0))
      modifies this
      ensures w.order == order && w.router == old(w).router && w.rows.Keys == old(w).rows.Keys
      ensures w.status == old(w).status
      ensures ok <==> !Failing(o, 1) && o.setPrimary
      ensures ok ==> Built(w, p, Prefix(order, 1)) && w.primary == Some(p)
      ensures Sound(w) && Untouched(old(w), w, 1) && (!Failing(o, 1) ==> UpTo(w, p, 1))
    {
      NoneReached(w, p);
      ok := Member(order, 0, p, !Failing(o, 1), o.left);
      if ok {
        ok := Record(order, p, o, old(w));
      }
    }

    /** The primary is up: the cluster row names it, if that can be written. */
    method Record(order: seq<InstanceId>, p: InstanceId, o: Calls, ghost w0: World) returns (ok: bool)
      requires order != [] && Built(w, p, Prefix(order, 1)) && Sound(w) && UpTo(w, p, 1) && Untouched(w0, w, 1)
      modifies this
      ensures ok == o.setPrimary && w == old(w).(primary := if ok then Some(p) else old(w).primary)
      ensures Sound(w) && (ok ==> Built(w, p, Prefix(order, 1))) && UpTo(w, p, 1) && Untouched(w0, w, 1)
    {
      ok := o.setPrimary;
      if ok {
        SetPrimary(p, Prefix(order, 1));
        PrimaryAside(w0, old(w), w, p);
      }
    }

    method SetPrimary(p: InstanceId, ghost done: set<InstanceId>)
      requires Built(w, p, done)
      modifies this
      ensures w == old(w).(primary := Some(p)) && Built(w, p, done) && Sound(w)
    {
      ClusterColumns(w, w.(primary := Some(p)), p, done);
      w := w.(primary := Some(p));
    }

    /** The loop over the replicas. */
    method Replicas(order: seq<InstanceId>, p: InstanceId, o: Calls, ghost w0: World) returns (ok: bool)
      requires w.order == order && order != [] && p == order[0]
      requires Built(w, p, Prefix(order, 1)) && !Failing(o, 1) && Harmless(o.left)
      requires w0.order == order && Untouched(w0, w, 1) && UpTo(w, p, 1) && o.setPrimary
      modifies this
      ensures Progress(old(w), w) && StoppedAt(w0, w, p, o)
      ensures ok <==> !Failing(o, |order|)
      ensures ok ==> Built(w, p, Prefix(order, |order|))
      ensures Sound(w)
    {
      for k := 1 to |order|
        invariant Progress(old(w), w)
        invariant Built(w, p, Prefix(order, k)) && !Failing(o, k)
        invariant Untouched(w0, w, k) && UpTo(w, p, k)
      {
        ghost var mid := w;
        ok := Member(order, k, p, !Failing(o, k + 1), o.left);
        StillUntouched(w0, mid, w, k);
        if !ok {
          return;
        }
      }
      BuiltIsSafe(w, p, Prefix(order, |order|));
      ok := true;
    }

    /** One member: Provision for the primary, ProvisionReplica for a replica. */
    method Member(order: seq<InstanceId>, k: nat, p: InstanceId, up: bool, left: Leftover) returns (ok: bool)
      requires w.order == order && k < |order| && Built(w, p, Prefix(order, k))
      requires up || order[k] == p || Harmless(left)
      requires UpTo(w, p, k) && Untouched(w, w, k)
      modifies this
      ensures ok == up && (ok ==> Built(w, p, Prefix(order, k + 1)))
      ensures Progress(old(w), w) && Sound(w)
      ensures UpTo(w, p, if ok then k + 1 else k) && Untouched(old(w), w, k + 1)
    {
      MemberStep(w, order, k, p, up, left);
      MemberReaches(w, p, k, up, left);
      ok := up;
      w := AfterMember(w, order[k], p, up, left);
    }
  }

  /** The first `n` members are up. */
  ghost predicate UpTo(w: World, p: InstanceId, n: nat) {
    n <= |w.order| && forall m :: 0 <= m < n ==> Up(w, w.order[m], if w.order[m] == p then Writable else Standby)
  }

  /** The members from the n-th on have the rows they had, and neither volume nor container. */
  ghost predicate Untouched(w0: World, w: World, n: nat) {
    && w.order == w0.order
    && forall m :: n <= m < |w.order| ==>
         var i := w.order[m];
         && i in w0.rows && i in w.rows && w.rows[i] == w0.rows[i]
         && i !in w.containers && i in w.volumes && w.volumes[i] == Absent
  }

  /** How far a provisioning got: the members before the one that failed are up and those after it have not been
      touched; nothing is provisioned after the primary if it could not be recorded; and otherwise every member
      is up, whatever becomes of the router. */
  ghost predicate StoppedAt(w0: World, w: World, p: InstanceId, o: Calls) {
    && w.order == w0.order
    && if Failing(o, 1) then Untouched(w0, w, 1)
       else if !o.setPrimary then UpTo(w, p, 1) && Untouched(w0, w, 1)
       else if Failing(o, |w.order|) then UpTo(w, p, o.fails.value) && Untouched(w0, w, o.fails.value + 1)
       else UpTo(w, p, |w.order|)
  }

  lemma NoneReached(w: World, p: InstanceId)
    requires Built(w, p, {}) && w.order != []
    ensures UpTo(w, p, 0) && Untouched(w, w, 0)
  {
    assert forall m :: 0 <= m < |w.order| ==> w.order[m] in w.order;
  }

  lemma MemberReaches(w: World, p: InstanceId, k: nat, up: bool, left: Leftover)
    requires k < |w.order| && Distinct(w.order) && UpTo(w, p, k) && Untouched(w, w, k)
    ensures var w' := AfterMember(w, w.order[k], p, up, left);
            UpTo(w', p, if up then k + 1 else k) && Untouched(w, w', k + 1)
  {
    var w' := AfterMember(w, w.order[k], p, up, left);
    forall m | 0 <= m < k ensures Up(w', w.order[m], if w.order[m] == p then Writable else Standby) {
      assert w.order[m] != w.order[k];
      assert Up(w, w.order[m], if w.order[m] == p then Writable else Standby);
    }
  }

  lemma StillUntouched(w0: World, mid: World, w: World, k: nat)
    requires Untouched(w0, mid, k) && Untouched(mid, w, k + 1)
    ensures Untouched(w0, w, k + 1)
  {
  }

  lemma PrimaryAside(w0: World, mid: World, w: World, p: InstanceId)
    requires UpTo(mid, p, 1) && Untouched(w0, mid, 1) && w == mid.(primary := w.primary)
    ensures UpTo(w, p, 1) && Untouched(w0, w, 1)
  {
  }

  /** The cluster's own columns do not matter to how far it got. */
  lemma ColumnsAside(w0: World, w: World, w': World, p: InstanceId, o: Calls)
    requires StoppedAt(w0, w, p, o) && w' == w.(status := w'.status, primary := w'.primary, router := w'.router)
    ensures StoppedAt(w0, w', p, o)
  {
    forall m | 0 <= m < |w.order| && Up(w, w.order[m], if w.order[m] == p then Writable else Standby)
      ensures Up(w', w.order[m], if w.order[m] == p then Writable else Standby)
    {
    }
  }

  function AfterMember(w: World, i: InstanceId, p: InstanceId, up: bool, left: Leftover): World {
    if up then BringUp(w, i, if i == p then Writable else Standby) else Fail(w, i, left)
  }

  lemma MemberStep(w: World, order: seq<InstanceId>, k: nat, p: InstanceId, up: bool, left: Leftover)
    requires w.order == order && k < |order| && Built(w, p, Prefix(order, k))
    requires up || order[k] == p || Harmless(left)
    ensures var w' := AfterMember(w, order[k], p, up, left);
            (up ==> Built(w', p, Prefix(order, k + 1))) && Progress(w, w') && Sound(w')
  {
    PrefixGrows(order, k);
    if up {
      BuildNext(w, p, Prefix(order, k), order[k]);
      BuiltIsSafe(AfterMember(w, order[k], p, up, left), p, Prefix(order, k + 1));
    } else {
      FailedIsSafe(w, p, Prefix(order, k), order[k], left);
    }
    MemberProgress(w, order[k], p, up, left);
  }

  lemma MemberProgress(w: World, i: InstanceId, p: InstanceId, up: bool, left: Leftover)
    ensures Progress(w, AfterMember(w, i, p, up, left))
  {
    assert AfterMember(w, i, p, up, left).rows.Keys == w.rows.Keys;
  }

  /** No split brain, and one primary row at most. */
  ghost predicate Sound(w: World) {
    SingleWriter(w) && OnePrimaryRow(w.rows)
  }

  /** Only members changed, and they are the same members. */
  predicate Progress(w: World, w': World) {
    && w'.order == w.order && w'.rows.Keys == w.rows.Keys
    && w'.status == w.status && w'.primary == w.primary && w'.router == w.router
  }

  lemma PrefixIsAll(order: seq<InstanceId>, members: set<InstanceId>)
    requires forall i :: i in order <==> i in members
    ensures Prefix(order, |order|) == members
  {
    assert order[..|order|] == order;
  }

  lemma SameWriters(w: World, w': World)
    requires Sound(w) && w' == w.(status := w'.status)
    ensures Sound(w')
  {
    assert forall i :: Writer(w', i) <==> Writer(w, i);
  }

  /** The cluster's own columns do not matter to what has been built. */
  lemma ClusterColumns(w: World, w': World, p: InstanceId, done: set<InstanceId>)
    requires Built(w, p, done) && w' == w.(status := w'.status, primary := w'.primary, router := w'.router)
    ensures Built(w', p, done) && Sound(w')
  {
    forall i | i in done ensures Up(w', i, if i == p then Writable else Standby) {
      assert Up(w, i, if i == p then Writable else Standby);
    }
    BuiltIsSafe(w', p, done);
  }

  lemma FailedIsSafe(w: World, p: InstanceId, done: set<InstanceId>, i: InstanceId, left: Leftover)
    requires Built(w, p, done) && i in w.rows && (i == p || Harmless(left))
    ensures Sound(Fail(w, i, left))
  {
    forall j | Writer(Fail(w, i, left), j) ensures j == p {
      if j != i {
        assert Up(w, j, if j == p then Writable else Standby);
      }
    }
    FailedRoles(w, p, i, left);
  }

  lemma FailedRoles(w: World, p: InstanceId, i: InstanceId, left: Leftover)
    requires Shaped(w, p) && i in w.rows
    ensures OnePrimaryRow(Fail(w, i, left).rows)
  {
    assert forall j :: j in w.rows ==> Fail(w, i, left).rows[j].role == w.rows[j].role;
  }

  /** What Create inserts is where Provision starts. */
  lemma InsertedIsUnbuilt(order: seq<InstanceId>, rows: map<InstanceId, Row>)
    requires Inserted(order, rows)
    ensures Built(Unbuilt(order, rows), order[0], {})
  {
  }

  /** The world in which Provision starts. */
  function Unbuilt(order: seq<InstanceId>, rows: map<InstanceId, Row>): World {
    World(order, rows, map i | i in rows :: Absent, [], map[], ClusterProvisioning, None, None)
  }

  /** Creating a cluster and provisioning it: exactly if everything works, the result is a state from
      which the failover protocol can start. */
  method Establish(replicas: int, ids: seq<InstanceId>, valid: bool, fails: Option<nat>, o: Calls)
    returns (ok: bool, w: Option<World>)
    requires |ids| == MAX_REPLICAS + 1 && Distinct(ids) && (Failing(o, 1) || Harmless(o.left))
    ensures ok <==> && valid && 0 <= replicas <= MAX_REPLICAS && (fails.Some? ==> fails.value > replicas)
                    && AllWork(o, replicas + 1) && o.saveStatus
    ensures ok ==> w.Some? && Initial(State(w.value, Idle, NoPass)) && |w.value.order| == replicas + 1
    ensures w.Some? ==> Sound(w.value)
  {
    w := None;
    var order, rows;
    ok, order, rows := Create(replicas, ids, valid, fails);
    if ok {
      InsertedIsUnbuilt(order, rows);
      var service := new Service(Unbuilt(order, rows));
      ok := service.Provision(o);
      w := Some(service.w);
    }
  }
}
