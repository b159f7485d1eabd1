/** The reconciler (internal/reconcile/reconcile.go:38-109): it brings the instance rows into
    agreement with the containers Docker lists. */
module Reconcile {
  import opened Optional
  import opened Fleet
  import Restore

  datatype InstanceRow = InstanceRow(status: Status, cid: Option<ContainerId>, port: int)

  type Rows = map<InstanceId, InstanceRow>

  /** The role label of a managed container; all but `Main` are transient helpers. */
  datatype Label = Main | RestoreHelper | BaseBackup | Drill | RouterLabel

  /** A listed container; the instance label may be empty. */
  datatype Listed = Listed(id: ContainerId, role: Label, inst: Option<InstanceId>)

  /** What an inspection reports; a container missing from `Inspections` could not be inspected. */
  datatype Inspection = Inspection(running: bool, port: int)

  type Inspections = map<ContainerId, Inspection>

  /** Which writes the meta database accepts. */
  datatype Writes = Writes(runtime: set<InstanceId>, status: set<InstanceId>)

  predicate InFlight(st: Status) {
    st == Errored || st == Destroying || st == Restoring || st == Provisioning
  }

  predicate MainOf(c: Listed, i: InstanceId) {
    c.role == Main && c.inst == Some(i)
  }

  /** The container a listing indexes for each instance: its last main container. */
  ghost function ByInstance(cs: seq<Listed>): map<InstanceId, ContainerId> {
    if cs == [] then map[]
    else
      var c := cs[|cs| - 1];
      var rest := ByInstance(cs[..|cs| - 1]);
      if c.role == Main && c.inst.Some? then rest[c.inst.value := c.id] else rest
  }

  // ---------- what one pass does to one row ----------

  /** The status a container's state calls for. */
  function Desired(running: bool): Status {
    if running then Running else Stopped
  }

  /** The row after a pass that found container `found` for it. */
  function Settle(row: InstanceRow, found: Option<ContainerId>, seen: Inspections, runtime: bool, status: bool)
    : (r: InstanceRow)
  {
    if InFlight(row.status) then row
    else if found.None? then
      if row.status == Running && status then row.(status := Errored) else row
    else if found.value !in seen then row
    else
      var state := seen[found.value];
      var adopted := if row.cid != found && runtime then row.(cid := found, port := state.port) else row;
      if row.status != Desired(state.running) && status then adopted.(status := Desired(state.running)) else adopted
  }

  function Found(index: map<InstanceId, ContainerId>, i: InstanceId): Option<ContainerId> {
    if i in index then Some(index[i]) else None
  }

  /** Every row after a pass. */
  function Pass(rows: Rows, index: map<InstanceId, ContainerId>, seen: Inspections, ok: Writes): Rows {
    map i | i in rows :: Settle(rows[i], Found(index, i), seen, i in ok.runtime, i in ok.status)
  }

  /** The row and the container agree, so a pass has nothing to write. */
  predicate Agreed(row: InstanceRow, found: Option<ContainerId>, seen: Inspections) {
    || InFlight(row.status)
    || (found.None? && row.status != Running)
    || (found.Some? && found.value !in seen)
    || (found.Some? && row.cid == found && row.status == Desired(seen[found.value].running))
  }

  ghost predicate AllAgreed(rows: Rows, index: map<InstanceId, ContainerId>, seen: Inspections) {
    forall i :: i in rows ==> Agreed(rows[i], Found(index, i), seen)
  }

  /** The rows while a pass is at position `n` of its list. */
  ghost function Partly(rows: Rows, order: seq<InstanceId>, n: nat, index: map<InstanceId, ContainerId>,
                        seen: Inspections, ok: Writes): Rows
    requires n <= |order|
  {
    map i | i in rows :: if i in order[..n] then Pass(rows, index, seen, ok)[i] else rows[i]
  }

  ghost predicate AgreedUpTo(rows: Rows, order: seq<InstanceId>, n: nat, index: map<InstanceId, ContainerId>,
                             seen: Inspections)
    requires n <= |order|
  {
    forall i :: i in order[..n] && i in rows ==> Agreed(rows[i], Found(index, i), seen)
  }

  lemma PartlyStep(rows: Rows, order: seq<InstanceId>, n: nat, index: map<InstanceId, ContainerId>,
                   seen: Inspections, ok: Writes)
    requires n < |order| && Distinct(order) && order[n] in rows
    ensures Partly(rows, order, n, index, seen, ok)[order[n]] == rows[order[n]]
    ensures Partly(rows, order, n + 1, index, seen, ok)
         == Partly(rows, order, n, index, seen, ok)[order[n] := Pass(rows, index, seen, ok)[order[n]]]
    ensures AgreedUpTo(rows, order, n + 1, index, seen) <==>
              AgreedUpTo(rows, order, n, index, seen) && Agreed(rows[order[n]], Found(index, order[n]), seen)
  {
    assert order[..n + 1] == order[..n] + [order[n]];
    assert order[n] !in order[..n];
  }

  lemma PartlyStart(rows: Rows, order: seq<InstanceId>, index: map<InstanceId, ContainerId>, seen: Inspections,
                    ok: Writes)
    ensures Partly(rows, order, 0, index, seen, ok) == rows && AgreedUpTo(rows, order, 0, index, seen)
  {
  }

  lemma PartlyDone(rows: Rows, order: seq<InstanceId>, index: map<InstanceId, ContainerId>, seen: Inspections,
                   ok: Writes)
    requires forall i :: i in order <==> i in rows
    ensures Partly(rows, order, |order|, index, seen, ok) == Pass(rows, index, seen, ok)
    ensures AgreedUpTo(rows, order, |order|, index, seen) <==> AllAgreed(rows, index, seen)
  {
    assert order[..|order|] == order;
  }

  // ---------- the code ----------

  class Reconciler {
    /** The instance table, and the number of updates issued against it. */
    var rows: Rows
    var writes: nat

    constructor (rows0: Rows)
      ensures rows == rows0 && writes == 0
    {
      rows := rows0;
      writes := 0;
    }

    /** One pass.  A listing that fails ends it without any effect. */
    method Reconcile(order: Option<seq<InstanceId>>, listing: Option<seq<Listed>>, seen: Inspections, ok: Writes)
      requires order.Some? ==> Distinct(order.value) && forall i :: i in order.value <==> i in rows
      modifies this
      ensures order.None? || listing.None? ==> rows == old(rows) && writes == old(writes)
      ensures order.Some? && listing.Some? ==>
                var index := ByInstance(listing.value);
                && rows == Pass(old(rows), index, seen, ok)
                && (writes == old(writes) <==> AllAgreed(old(rows), index, seen))
    {
      if order.None? || listing.None? {
        return;
      }
      var index := Index(listing.value);
      PartlyDone(rows, order.value, index, seen, ok);
      Sweep(order.value, index, seen, ok);
    }

    /** The loop over the listed instances. */
    method Sweep(order: seq<InstanceId>, index: map<InstanceId, ContainerId>, seen: Inspections, ok: Writes)
      requires Distinct(order) && forall i :: i in order ==> i in rows
      modifies this
      ensures rows == Partly(old(rows), order, |order|, index, seen, ok)
      ensures writes == old(writes) <==> AgreedUpTo(old(rows), order, |order|, index, seen)
    {
      ghost var before := rows;
      PartlyStart(before, order, index, seen, ok);
      for n := 0 to |order|
        invariant rows == Partly(before, order, n, index, seen, ok) && writes >= old(writes)
        invariant writes == old(writes) <==> AgreedUpTo(before, order, n, index, seen)
      {
        PartlyStep(before, order, n, index, seen, ok);
        ReconcileOne(order[n], index, seen, ok);
      }
    }

    /** The switch on one instance; each changed column is one update. */
    method ReconcileOne(i: InstanceId, index: map<InstanceId, ContainerId>, seen: Inspections, ok: Writes)
      requires i in rows
      modifies this
      ensures rows == old(rows)[i := Settle(old(rows)[i], Found(index, i), seen, i in ok.runtime, i in ok.status)]
      ensures writes >= old(writes)
      ensures writes == old(writes) <==> Agreed(old(rows)[i], Found(index, i), seen)
    {
      var inst := rows[i];
      if InFlight(inst.status) {
        return;
      }
      if i !in index {
        if inst.status == Running {
          SetStatus(i, Errored, ok);
        }
        return;
      }
      if index[i] !in seen {
        return;
      }
      var state := seen[index[i]];
      if inst.cid != Some(index[i]) {
        SetRuntime(i, index[i], state.port, ok);
      }
      if inst.status != Desired(state.running) {
        SetStatus(i, Desired(state.running), ok);
      }
    }

    method SetStatus(i: InstanceId, st: Status, ok: Writes)
      requires i in rows
      modifies this
      ensures writes == old(writes) + 1
      ensures rows == if i in ok.status then old(rows)[i := old(rows)[i].(status := st)] else old(rows)
    {
      writes := writes + 1;
      if i in ok.status {
        rows := rows[i := rows[i].(status := st)];
      }
    }

    method SetRuntime(i: InstanceId, c: ContainerId, port: int, ok: Writes)
      requires i in rows
      modifies this
      ensures writes == old(writes) + 1
      ensures rows == if i in ok.runtime then old(rows)[i := old(rows)[i].(cid := Some(c), port := port)] else old(rows)
    {
      writes := writes + 1;
      if i in ok.runtime {
        rows := rows[i := rows[i].(cid := Some(c), port := port)];
      }
    }
  }

  /** The loop that indexes the listing. */
  method Index(cs: seq<Listed>) returns (byInstance: map<InstanceId, ContainerId>)
    ensures byInstance == ByInstance(cs)
  {
    byInstance := map[];
    for n := 0 to |cs|
      invariant byInstance == ByInstance(cs[..n])
    {
      assert cs[..n + 1][..n] == cs[..n];
      if cs[n].role == Main && cs[n].inst.Some? {
        byInstance := byInstance[cs[n].inst.value := cs[n].id];
      }
    }
    assert cs[..|cs|] == cs;
  }

  // ---------- listings in another order ----------

  /** `i` is indexed exactly when it has a main container, and then with one of them. */
  lemma {:induction false} IndexedIsMain(cs: seq<Listed>, i: InstanceId)
    ensures i in ByInstance(cs) <==> exists k :: 0 <= k < |cs| && MainOf(cs[k], i)
    ensures i in ByInstance(cs) ==> exists k :: 0 <= k < |cs| && MainOf(cs[k], i) && cs[k].id == ByInstance(cs)[i]
  {
    if cs != [] {
      var front := cs[..|cs| - 1];
      IndexedIsMain(front, i);
      if MainOf(cs[|cs| - 1], i) {
      } else if i in ByInstance(cs) {
        var k :| 0 <= k < |front| && MainOf(front[k], i) && front[k].id == ByInstance(front)[i];
        assert cs[k] == front[k];
      } else {
        forall k | 0 <= k < |cs| ensures !MainOf(cs[k], i) {
          assert k < |front| ==> cs[k] == front[k];
        }
      }
    }
  }

  /** No instance has two main containers. */
  ghost predicate OneMainEach(cs: seq<Listed>) {
    forall c, d, i :: c in cs && d in cs && MainOf(c, i) && MainOf(d, i) ==> c.id == d.id
  }

  /** Two listings of the same containers. */
  ghost predicate SameListing(a: seq<Listed>, b: seq<Listed>) {
    multiset(a) == multiset(b)
  }

  lemma SameElements(a: seq<Listed>, b: seq<Listed>)
    requires SameListing(a, b)
    ensures forall c :: c in a <==> c in b
  {
    forall c ensures c in a <==> c in b {
      assert c in a <==> c in multiset(a);
      assert c in b <==> c in multiset(b);
    }
  }

  /** With one main container per instance the order of the listing does not matter. */
  lemma OrderIrrelevant(a: seq<Listed>, b: seq<Listed>)
    requires OneMainEach(a) && SameListing(a, b)
    ensures ByInstance(a) == ByInstance(b)
  {
    SameElements(a, b);
    forall i ensures i in ByInstance(a) <==> i in ByInstance(b) {
      IndexedIsMain(a, i);
      IndexedIsMain(b, i);
      if i in ByInstance(a) {
        var k :| 0 <= k < |a| && MainOf(a[k], i);
        assert a[k] in b;
        var m :| 0 <= m < |b| && b[m] == a[k];
      }
      if i in ByInstance(b) {
        var k :| 0 <= k < |b| && MainOf(b[k], i);
        assert b[k] in a;
        var m :| 0 <= m < |a| && a[m] == b[k];
      }
    }
    forall i | i in ByInstance(a) ensures ByInstance(a)[i] == ByInstance(b)[i] {
      IndexedIsMain(a, i);
      IndexedIsMain(b, i);
      var k :| 0 <= k < |a| && MainOf(a[k], i) && a[k].id == ByInstance(a)[i];
      var m :| 0 <= m < |b| && MainOf(b[m], i) && b[m].id == ByInstance(b)[i];
      assert b[m] in b && a[k] in a;
    }
  }

  /** The same containers with `c` listed last. */
  lemma ListedLast(cs: seq<Listed>, c: Listed) returns (b: seq<Listed>)
    requires c in cs
    ensures SameListing(cs, b) && b != [] && b[|b| - 1] == c
  {
    var k :| 0 <= k < |cs| && cs[k] == c;
    b := cs[..k] + cs[k + 1..] + [c];
    assert cs == cs[..k] + [c] + cs[k + 1..];
  }

  /** One main container per instance is also necessary: with two, some other order of the same
      listing makes the pass adopt the other one. */
  lemma OrderMatters(cs: seq<Listed>)
    ensures OneMainEach(cs) <==> forall b :: SameListing(cs, b) ==> ByInstance(b) == ByInstance(cs)
  {
    if OneMainEach(cs) {
      forall b | SameListing(cs, b) ensures ByInstance(b) == ByInstance(cs) {
        OrderIrrelevant(cs, b);
      }
    } else {
      var c, d, i :| c in cs && d in cs && MainOf(c, i) && MainOf(d, i) && c.id != d.id;
      var b1 := ListedLast(cs, c);
      var b2 := ListedLast(cs, d);
      assert ByInstance(b1)[i] == c.id && ByInstance(b2)[i] == d.id;
    }
  }

  // ---------- convergence ----------

  ghost predicate AllAccepted(rows: Rows, ok: Writes) {
    rows.Keys <= ok.runtime && rows.Keys <= ok.status
  }

  /** A pass never changes an instance that another operation owns. */
  lemma InFlightUntouched(rows: Rows, index: map<InstanceId, ContainerId>, seen: Inspections, ok: Writes, i: InstanceId)
    requires i in rows && InFlight(rows[i].status)
    ensures Pass(rows, index, seen, ok)[i] == rows[i] && Agreed(rows[i], Found(index, i), seen)
  {
  }

  /** What holds after a pass whose writes were accepted: a running or stopped instance whose
      container was inspected has that container's id and the matching status, and a running
      instance without a container has become an error. */
  lemma PassSettles(rows: Rows, index: map<InstanceId, ContainerId>, seen: Inspections, ok: Writes, i: InstanceId)
    requires i in rows && AllAccepted(rows, ok)
    ensures var r := Pass(rows, index, seen, ok)[i];
            && Agreed(r, Found(index, i), seen)
            && ((r.status == Running || r.status == Stopped) && i in index && index[i] in seen ==>
                  r.cid == Some(index[i]) && r.status == Desired(seen[index[i]].running))
            && (rows[i].status == Running && i !in index ==> r.status == Errored)
  {
  }

  /** The pass column by column, whichever writes are accepted: the container id and port of an inspected container
      are recorded if the id differs, the status follows the container, and a running instance without a container
      becomes an error; nothing else changes. */
  lemma PassColumns(rows: Rows, index: map<InstanceId, ContainerId>, seen: Inspections, ok: Writes, i: InstanceId)
    requires i in rows
    ensures var row, r := rows[i], Pass(rows, index, seen, ok)[i];
            var owned := row.status == Errored || row.status == Destroying || row.status == Restoring
                         || row.status == Provisioning;
            var inspected := !owned && i in index && index[i] in seen;
            && r.cid == (if inspected && i in ok.runtime then Some(index[i]) else row.cid)
            && r.port == (if inspected && i in ok.runtime && row.cid != Some(index[i]) then seen[index[i]].port
                          else row.port)
            && r.status == if owned || i !in ok.status then row.status
                           else if inspected then (if seen[index[i]].running then Running else Stopped)
                           else if i !in index && row.status == Running then Errored
                           else row.status
  {
  }

  /** Convergence: with one main container per instance, a second pass over an unchanged world, its
      containers listed in any order, finds every row agreed, so it writes nothing and changes
      nothing. */
  lemma SecondPassIsSilent(rows: Rows, a: seq<Listed>, b: seq<Listed>, seen: Inspections, ok: Writes, ok': Writes)
    requires OneMainEach(a) && SameListing(a, b) && AllAccepted(rows, ok)
    ensures var after := Pass(rows, ByInstance(a), seen, ok);
            && AllAgreed(after, ByInstance(b), seen)
            && Pass(after, ByInstance(b), seen, ok') == after
  {
    OrderIrrelevant(a, b);
    var after := Pass(rows, ByInstance(a), seen, ok);
    forall i | i in after ensures Agreed(after[i], Found(ByInstance(b), i), seen) {
      PassSettles(rows, ByInstance(a), seen, ok, i);
    }
    AgreedStays(after, ByInstance(b), seen, ok');
  }

  lemma AgreedStays(rows: Rows, index: map<InstanceId, ContainerId>, seen: Inspections, ok: Writes)
    requires AllAgreed(rows, index, seen)
    ensures Pass(rows, index, seen, ok) == rows
  {
    forall i | i in rows ensures Pass(rows, index, seen, ok)[i] == rows[i] {
      assert Agreed(rows[i], Found(index, i), seen);
    }
  }

  /** Without that, passes over an unchanged world can go on rewriting a row for ever. */
  lemma TwoMainsFlap(i: InstanceId, c: ContainerId, d: ContainerId, ok: Writes)
    requires c != d && i in ok.runtime && i in ok.status
    ensures var a := [Listed(c, Main, Some(i)), Listed(d, Main, Some(i))];
            var b := [a[1], a[0]];
            var seen := map[c := Inspection(true, 1), d := Inspection(true, 2)];
            var rows := map[i := InstanceRow(Running, Some(c), 1)];
            var after := Pass(rows, ByInstance(a), seen, ok);
            SameListing(a, b) && after != rows && Pass(after, ByInstance(b), seen, ok) == rows
  {
    var a := [Listed(c, Main, Some(i)), Listed(d, Main, Some(i))];
    var b := [a[1], a[0]];
    LastIndexed(a);
    LastIndexed(b);
    assert multiset(a) == multiset{a[0], a[1]} == multiset(b);
    var seen := map[c := Inspection(true, 1), d := Inspection(true, 2)];
    var rows := map[i := InstanceRow(Running, Some(c), 1)];
    var after := Pass(rows, ByInstance(a), seen, ok);
    assert after[i] == InstanceRow(Running, Some(d), 2);
    assert Pass(after, ByInstance(b), seen, ok)[i] == rows[i];
  }

  lemma LastIndexed(cs: seq<Listed>)
    requires cs != [] && cs[|cs| - 1].role == Main && cs[|cs| - 1].inst.Some?
    ensures var c := cs[|cs| - 1]; c.inst.value in ByInstance(cs) && ByInstance(cs)[c.inst.value] == c.id
  {
  }

  // ---------- the reconciler after a restore ----------

  /** A restore commits but its last inspection fails, so the row still names the container that was
      just removed.  The next pass records the new container, provided the instance's main containers that
      are listed are on the new volume, and this makes the world tidy again. */
  lemma RepairsRestore(w: Restore.World, w': Restore.World, nv: nat, nc: nat, o: Restore.Calls,
                       rows: Rows, i: InstanceId, cs: seq<Listed>, seen: Inspections, ok: Writes)
    requires Restore.Safe(w) && Restore.Swapped(w, w', nv, nc, o) && !o.inspect && w.row.cid.Some?
    requires i in rows && rows[i].status == Running && i in ok.runtime
    requires rows[i].cid == w'.row.cid
    requires forall c :: c in cs && MainOf(c, i) ==> c.id in w'.containers && w'.containers[c.id].volume == nv
    requires Listed(nc, Main, Some(i)) in cs && nc in seen && seen[nc].running
    ensures rows[i].cid.Some? && rows[i].cid.value !in w'.containers
    ensures Pass(rows, ByInstance(cs), seen, ok)[i] == InstanceRow(Running, Some(nc), seen[nc].port)
    ensures o.saveVolume ==> !Restore.Tidy(w') && Restore.Tidy(w'.(row := w'.row.(cid := Some(nc))))
  {
    IndexedIsMain(cs, i);
    var k :| 0 <= k < |cs| && cs[k] == Listed(nc, Main, Some(i));
    assert MainOf(cs[k], i);
    var m :| 0 <= m < |cs| && MainOf(cs[m], i) && cs[m].id == ByInstance(cs)[i];
    assert cs[m] in cs;
  }
}
