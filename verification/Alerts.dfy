/** Alert rows and transitions (internal/alerts/store.go:39-147). */
module Alerts {
  type InstanceId = nat
  type Kind = string

  datatype Condition = Firing | Resolved

  datatype Alert = Alert(instance: InstanceId, kind: Kind, severity: string, message: string, state: Condition)

  datatype Finding = Finding(kind: Kind, severity: string, message: string)

  datatype Transition = Transition(instance: InstanceId, kind: Kind, to: Condition, severity: string, message: string)

  datatype Result = Ok(transitions: seq<Transition>) | Err

  type Key = (InstanceId, Kind)

  // ---------- the table ----------

  /** The (instance, kind) pairs with a firing row. */
  function Active(rows: seq<Alert>): (r: set<Key>)
    ensures forall i: InstanceId, k: Kind :: (i, k) in r <==> exists n :: 0 <= n < |rows| && IsFiring(rows[n], i, k)
  {
    set n | 0 <= n < |rows| && rows[n].state == Firing :: (rows[n].instance, rows[n].kind)
  }

  predicate IsFiring(a: Alert, i: InstanceId, k: Kind) {
    a.instance == i && a.kind == k && a.state == Firing
  }

  /** At most one firing row per (instance, kind). */
  ghost predicate OneFiring(rows: seq<Alert>) {
    forall m, n :: 0 <= m < n < |rows| && IsFiring(rows[n], rows[m].instance, rows[m].kind) ==> rows[m].state != Firing
  }

  function Find(rows: seq<Alert>, i: InstanceId, k: Kind): (r: nat)
    ensures r <= |rows|
    ensures r < |rows| ==> IsFiring(rows[r], i, k)
    ensures r == |rows| ==> forall n :: 0 <= n < |rows| ==> !IsFiring(rows[n], i, k)
  {
    if rows == [] then 0
    else if IsFiring(rows[0], i, k) then 0
    else 1 + Find(rows[1..], i, k)
  }

  /** INSERT .. ON CONFLICT DO UPDATE: refresh the firing row, or add one. */
  function Upsert(rows: seq<Alert>, i: InstanceId, f: Finding): seq<Alert> {
    var row := Alert(i, f.kind, f.severity, f.message, Firing);
    var n := Find(rows, i, f.kind);
    if n < |rows| then rows[n := row] else rows + [row]
  }

  /** UPDATE .. SET state = 'resolved' for the firing row of the kind. */
  function Resolve(rows: seq<Alert>, i: InstanceId, k: Kind): (r: seq<Alert>)
    ensures |r| == |rows|
    ensures forall n :: 0 <= n < |rows| ==>
              r[n] == if IsFiring(rows[n], i, k) then rows[n].(state := Resolved) else rows[n]
  {
    seq(|rows|, n requires 0 <= n < |rows| => if IsFiring(rows[n], i, k) then rows[n].(state := Resolved) else rows[n])
  }

  /** Rows are never removed, keep their instance and kind, and are only touched while firing for `i`. */
  ghost predicate Evolves(rows: seq<Alert>, rows': seq<Alert>, i: InstanceId) {
    && |rows| <= |rows'|
    && (forall n :: 0 <= n < |rows| ==>
          && rows'[n].instance == rows[n].instance && rows'[n].kind == rows[n].kind
          && (rows[n].state == Resolved || rows[n].instance != i ==> rows'[n] == rows[n]))
    && (forall n :: |rows| <= n < |rows'| ==> rows'[n].instance == i)
  }

  /** A firing row of `i` carries the finding's current severity and message. */
  ghost predicate Shows(rows: seq<Alert>, i: InstanceId, f: Finding) {
    exists n :: 0 <= n < |rows| && rows[n] == Alert(i, f.kind, f.severity, f.message, Firing)
  }

  /** Every finding is shown, the last one of its kind if kinds repeat. */
  ghost predicate ShowsAll(rows: seq<Alert>, i: InstanceId, findings: seq<Finding>) {
    forall m :: 0 <= m < |findings| && (forall n :: m < n < |findings| ==> findings[n].kind != findings[m].kind) ==>
      Shows(rows, i, findings[m])
  }

  lemma UpsertShows(rows: seq<Alert>, i: InstanceId, f: Finding, findings: seq<Finding>)
    requires ShowsAll(rows, i, findings)
    ensures ShowsAll(Upsert(rows, i, f), i, findings + [f])
  {
    var r, fs := Upsert(rows, i, f), findings + [f];
    var at := Find(rows, i, f.kind);
    assert r[at] == Alert(i, f.kind, f.severity, f.message, Firing);
    forall m | 0 <= m < |fs| && (forall n :: m < n < |fs| ==> fs[n].kind != fs[m].kind) ensures Shows(r, i, fs[m]) {
      if m < |findings| {
        assert fs[|findings|].kind != fs[m].kind;
        assert forall n :: m < n < |findings| ==> findings[n] == fs[n];
        var k :| 0 <= k < |rows| && rows[k] == Alert(i, fs[m].kind, fs[m].severity, fs[m].message, Firing);
        assert r[k] == rows[k];
      }
    }
  }

  lemma ResolveShows(rows: seq<Alert>, i: InstanceId, k: Kind, findings: seq<Finding>)
    requires ShowsAll(rows, i, findings) && forall n :: 0 <= n < |findings| ==> findings[n].kind != k
    ensures ShowsAll(Resolve(rows, i, k), i, findings)
  {
    var r := Resolve(rows, i, k);
    forall m | 0 <= m < |findings| && (forall n :: m < n < |findings| ==> findings[n].kind != findings[m].kind)
      ensures Shows(r, i, findings[m])
    {
      var f := findings[m];
      var n :| 0 <= n < |rows| && rows[n] == Alert(i, f.kind, f.severity, f.message, Firing);
      assert r[n] == rows[n];
    }
  }

  lemma UpsertWorks(rows: seq<Alert>, i: InstanceId, f: Finding)
    requires OneFiring(rows)
    ensures var r := Upsert(rows, i, f);
            OneFiring(r) && Active(r) == Active(rows) + {(i, f.kind)} && Evolves(rows, r, i)
  {
    UpsertActive(rows, i, f);
  }

  lemma UpsertActive(rows: seq<Alert>, i: InstanceId, f: Finding)
    ensures Active(Upsert(rows, i, f)) == Active(rows) + {(i, f.kind)}
  {
    var r := Upsert(rows, i, f);
    var n := Find(rows, i, f.kind);
    assert IsFiring(r[n], i, f.kind);
    forall j, k ensures (j, k) in Active(r) <==> (j, k) in Active(rows) || (j, k) == (i, f.kind) {
      if (j, k) in Active(rows) {
        var m :| 0 <= m < |rows| && IsFiring(rows[m], j, k);
        assert IsFiring(r[m], j, k);
      }
      if (j, k) in Active(r) {
        var m :| 0 <= m < |r| && IsFiring(r[m], j, k);
        if m != n { assert IsFiring(rows[m], j, k); }
      }
    }
  }

  lemma ResolveWorks(rows: seq<Alert>, i: InstanceId, k: Kind)
    requires OneFiring(rows)
    ensures var r := Resolve(rows, i, k);
            OneFiring(r) && Active(r) == Active(rows) - {(i, k)} && Evolves(rows, r, i)
  {
    var r := Resolve(rows, i, k);
    forall j, l ensures (j, l) in Active(r) <==> (j, l) in Active(rows) && (j, l) != (i, k) {
      if (j, l) in Active(rows) && (j, l) != (i, k) {
        var m :| 0 <= m < |rows| && IsFiring(rows[m], j, l);
        assert IsFiring(r[m], j, l);
      }
      if (j, l) in Active(r) {
        var m :| 0 <= m < |r| && IsFiring(r[m], j, l);
        assert IsFiring(rows[m], j, l);
      }
    }
  }

  /** Exactly the firing rows of `i` with one of these kinds were touched, and they still fire; what was
      added fires for `i` with one of them. */
  ghost predicate Refreshed(rows: seq<Alert>, tx: seq<Alert>, i: InstanceId, kinds: set<Kind>) {
    && |rows| <= |tx|
    && (forall n :: 0 <= n < |rows| ==>
          if IsFiring(rows[n], i, rows[n].kind) && rows[n].kind in kinds then IsFiring(tx[n], i, rows[n].kind)
          else tx[n] == rows[n])
    && (forall n :: |rows| <= n < |tx| ==> IsFiring(tx[n], i, tx[n].kind) && tx[n].kind in kinds)
  }

  lemma RefreshedNext(rows: seq<Alert>, tx: seq<Alert>, i: InstanceId, seen: set<Kind>, f: Finding)
    requires OneFiring(rows) && OneFiring(tx) && Refreshed(rows, tx, i, seen)
    ensures Refreshed(rows, Upsert(tx, i, f), i, seen + {f.kind})
  {
  }

  /** What a Sync that found these kinds makes of the rows: a firing row of `i` whose kind was not found is
      resolved and otherwise as it was, one whose kind was found still fires, every other row is as it was,
      and what was added fires for `i` with a found kind. */
  ghost predicate Rewritten(rows: seq<Alert>, rows': seq<Alert>, i: InstanceId, kinds: set<Kind>) {
    && |rows| <= |rows'|
    && (forall n :: 0 <= n < |rows| ==>
          if !IsFiring(rows[n], i, rows[n].kind) then rows'[n] == rows[n]
          else if rows[n].kind in kinds then IsFiring(rows'[n], i, rows[n].kind)
          else rows'[n] == rows[n].(state := Resolved))
    && (forall n :: |rows| <= n < |rows'| ==> IsFiring(rows'[n], i, rows'[n].kind) && rows'[n].kind in kinds)
  }

  /** While stale rows are resolved: those of the kinds in `done` are. */
  ghost predicate Retired(rows: seq<Alert>, tx: seq<Alert>, i: InstanceId, done: set<Kind>) {
    && |tx| == |rows|
    && forall n :: 0 <= n < |rows| ==>
         tx[n] == if IsFiring(rows[n], i, rows[n].kind) && rows[n].kind in done then rows[n].(state := Resolved)
                  else rows[n]
  }

  lemma RetiredNext(rows: seq<Alert>, tx: seq<Alert>, i: InstanceId, done: set<Kind>, k: Kind)
    requires Retired(rows, tx, i, done) && k !in done
    ensures Retired(rows, Resolve(tx, i, k), i, done + {k})
  {
  }

  lemma RefreshedThenRetired(rows: seq<Alert>, tx: seq<Alert>, rows': seq<Alert>, i: InstanceId, kinds: set<Kind>,
                             gone: set<Kind>)
    requires Refreshed(rows, tx, i, kinds) && Retired(tx, rows', i, gone) && gone == KindsOf(Active(rows), i) - kinds
    ensures Rewritten(rows, rows', i, kinds)
  {
    forall n | 0 <= n < |rows| && IsFiring(rows[n], i, rows[n].kind) && rows[n].kind !in kinds
      ensures rows[n].kind in gone
    {
      assert (i, rows[n].kind) in Active(rows);
    }
  }

  // ---------- what a transition carries ----------

  /** Where a kind is found first; the number of findings if it is not. */
  function FirstAt(findings: seq<Finding>, k: Kind): (r: nat)
    ensures r <= |findings| && (r < |findings| ==> findings[r].kind == k)
    ensures forall n :: 0 <= n < r ==> findings[n].kind != k
  {
    if findings == [] then 0
    else
      var r := FirstAt(findings[..|findings| - 1], k);
      if r < |findings| - 1 || findings[r].kind == k then r else |findings|
  }

  /** Severity and message are those of the first finding of the kind. */
  ghost predicate Carries(findings: seq<Finding>, t: Transition) {
    var m := FirstAt(findings, t.kind);
    m < |findings| && t.severity == findings[m].severity && t.message == findings[m].message
  }

  ghost predicate Earlier(findings: seq<Finding>, k: Kind, l: Kind) {
    FirstAt(findings, k) < FirstAt(findings, l)
  }

  /** Each transition carries severity and message of the first finding of its kind, and they come in the
      order of those findings. */
  ghost predicate Announces(ups: seq<Transition>, findings: seq<Finding>) {
    && (forall n :: 0 <= n < |ups| ==> Carries(findings, ups[n]))
    && (forall m, n :: 0 <= m < n < |ups| ==> Earlier(findings, ups[m].kind, ups[n].kind))
  }

  lemma FirstSnoc(findings: seq<Finding>, f: Finding, k: Kind)
    ensures FirstAt(findings + [f], k) ==
            if FirstAt(findings, k) < |findings| then FirstAt(findings, k)
            else if f.kind == k then |findings| else |findings| + 1
  {
    assert (findings + [f])[..|findings|] == findings;
  }

  lemma CarriesOn(findings: seq<Finding>, f: Finding, t: Transition)
    requires Carries(findings, t)
    ensures Carries(findings + [f], t)
  {
    FirstSnoc(findings, f, t.kind);
  }

  lemma EarlierStill(findings: seq<Finding>, f: Finding, k: Kind, l: Kind)
    requires Earlier(findings, k, l)
    ensures Earlier(findings + [f], k, l)
  {
    FirstSnoc(findings, f, k);
    FirstSnoc(findings, f, l);
  }

  lemma AnnouncesMore(ups: seq<Transition>, findings: seq<Finding>, f: Finding)
    requires Announces(ups, findings)
    ensures Announces(ups, findings + [f])
  {
    forall n | 0 <= n < |ups| ensures Carries(findings + [f], ups[n]) {
      CarriesOn(findings, f, ups[n]);
    }
    forall m, n | 0 <= m < n < |ups| ensures Earlier(findings + [f], ups[m].kind, ups[n].kind) {
      EarlierStill(findings, f, ups[m].kind, ups[n].kind);
    }
  }

  lemma LastIsNew(findings: seq<Finding>, f: Finding, t: Transition)
    requires FirstAt(findings, f.kind) == |findings| && Carries(findings, t)
    ensures Earlier(findings + [f], t.kind, f.kind)
  {
    FirstSnoc(findings, f, f.kind);
    FirstSnoc(findings, f, t.kind);
  }

  lemma NewCarries(findings: seq<Finding>, f: Finding, i: InstanceId)
    requires FirstAt(findings, f.kind) == |findings|
    ensures Carries(findings + [f], Transition(i, f.kind, Firing, f.severity, f.message))
  {
    FirstSnoc(findings, f, f.kind);
  }

  lemma AnnouncesNext(ups: seq<Transition>, findings: seq<Finding>, i: InstanceId, f: Finding)
    requires Announces(ups, findings)
    ensures Announces(ups, findings + [f])
    ensures FirstAt(findings, f.kind) == |findings| ==>
              Announces(ups + [Transition(i, f.kind, Firing, f.severity, f.message)], findings + [f])
  {
    AnnouncesMore(ups, findings, f);
    if FirstAt(findings, f.kind) == |findings| {
      NewCarries(findings, f, i);
      AllEarlier(ups, findings, f);
      AppendAnnounces(ups, findings + [f], Transition(i, f.kind, Firing, f.severity, f.message));
    }
  }

  lemma AllEarlier(ups: seq<Transition>, findings: seq<Finding>, f: Finding)
    requires Announces(ups, findings) && FirstAt(findings, f.kind) == |findings|
    ensures forall m :: 0 <= m < |ups| ==> Earlier(findings + [f], ups[m].kind, f.kind)
  {
    forall m | 0 <= m < |ups| ensures Earlier(findings + [f], ups[m].kind, f.kind) {
      LastIsNew(findings, f, ups[m]);
    }
  }

  lemma AppendAnnounces(ups: seq<Transition>, findings: seq<Finding>, t: Transition)
    requires Announces(ups, findings) && Carries(findings, t)
    requires forall m :: 0 <= m < |ups| ==> Earlier(findings, ups[m].kind, t.kind)
    ensures Announces(ups + [t], findings)
  {
    var more := ups + [t];
    forall n | 0 <= n < |more| ensures Carries(findings, more[n]) {
      assert n < |ups| ==> more[n] == ups[n];
    }
    forall m, n | 0 <= m < n < |more| ensures Earlier(findings, more[m].kind, more[n].kind) {
      assert more[m] == ups[m] && (n < |ups| ==> more[n] == ups[n]);
    }
  }

  /** Each transition carries severity and message of the row that was firing. */
  ghost predicate Recalls(downs: seq<Transition>, rows: seq<Alert>) {
    forall n :: 0 <= n < |downs| ==> Recalled(downs[n], rows)
  }

  ghost predicate Recalled(t: Transition, rows: seq<Alert>) {
    exists m :: 0 <= m < |rows| && rows[m] == Alert(t.instance, t.kind, t.severity, t.message, Firing)
  }

  lemma RecallsMore(downs: seq<Transition>, rows: seq<Alert>, t: Transition, a: Alert)
    requires Recalls(downs, rows) && a in rows && a == Alert(t.instance, t.kind, t.severity, t.message, Firing)
    ensures Recalls(downs + [t], rows)
  {
    assert Recalled(t, rows);
  }

  lemma RecallsEarlier(downs: seq<Transition>, rows: seq<Alert>, tx: seq<Alert>, i: InstanceId, kinds: set<Kind>)
    requires Refreshed(rows, tx, i, kinds) && Recalls(downs, tx)
    requires forall n :: 0 <= n < |downs| ==> downs[n].kind !in kinds
    ensures Recalls(downs, rows)
  {
    forall n | 0 <= n < |downs| ensures Recalled(downs[n], rows) {
      assert Recalled(downs[n], tx);
      var t := downs[n];
      var m :| 0 <= m < |tx| && tx[m] == Alert(t.instance, t.kind, t.severity, t.message, Firing);
      assert m < |rows| && rows[m] == tx[m];
    }
  }

  // ---------- one Sync ----------

  ghost function Kinds(findings: seq<Finding>): set<Kind> {
    set n | 0 <= n < |findings| :: findings[n].kind
  }

  ghost function KindsOf(active: set<Key>, i: InstanceId): set<Kind> {
    set p | p in active && p.0 == i :: p.1
  }

  ghost function Keys(i: InstanceId, kinds: set<Kind>): set<Key> {
    set k | k in kinds :: (i, k)
  }

  /** One transition of instance `i` to the given condition for each of the kinds, and no other. */
  ghost predicate Emits(ts: seq<Transition>, i: InstanceId, to: Condition, kinds: set<Kind>) {
    && (forall n :: 0 <= n < |ts| ==> ts[n].instance == i && ts[n].to == to && ts[n].kind in kinds)
    && (forall k :: k in kinds ==> exists n :: 0 <= n < |ts| && ts[n].kind == k)
    && (forall m, n :: 0 <= m < n < |ts| ==> ts[m].kind != ts[n].kind)
  }

  lemma EmitsMore(ts: seq<Transition>, i: InstanceId, to: Condition, kinds: set<Kind>, t: Transition)
    requires Emits(ts, i, to, kinds) && t.instance == i && t.to == to && t.kind !in kinds
    ensures Emits(ts + [t], i, to, kinds + {t.kind})
  {
    var ts' := ts + [t];
    forall k | k in kinds + {t.kind} ensures exists n :: 0 <= n < |ts'| && ts'[n].kind == k {
      if k in kinds {
        var n :| 0 <= n < |ts| && ts[n].kind == k;
        assert ts'[n].kind == k;
      } else {
        assert ts'[|ts|].kind == k;
      }
    }
  }

  /** What a committed Sync of `i` with `findings` does to the rows and which transitions it returns:
      first one per newly firing kind, then one per kind that stopped firing. */
  ghost predicate Synced(rows: seq<Alert>, rows': seq<Alert>, i: InstanceId, kinds: set<Kind>,
                         ts: seq<Transition>, n: nat)
  {
    var before := KindsOf(Active(rows), i);
    && OneFiring(rows') && Evolves(rows, rows', i)
    && Active(rows') == Active(rows) - Keys(i, before) + Keys(i, kinds)
    && n <= |ts|
    && Emits(ts[..n], i, Firing, kinds - before)
    && Emits(ts[n..], i, Resolved, before - kinds)
  }

  lemma EvolvesFurther(a: seq<Alert>, b: seq<Alert>, c: seq<Alert>, i: InstanceId)
    requires Evolves(a, b, i) && Evolves(b, c, i)
    ensures Evolves(a, c, i)
  {
  }

  lemma SyncedKeys(active: set<Key>, i: InstanceId, kinds: set<Kind>)
    ensures var before := KindsOf(active, i);
            && active + Keys(i, kinds) - Keys(i, before - kinds) == active - Keys(i, before) + Keys(i, kinds)
            && forall k :: (i, k) in active + Keys(i, kinds) && k !in kinds <==> k in before - kinds
  {
  }

  lemma KindsSnoc(findings: seq<Finding>, n: nat)
    requires n < |findings|
    ensures findings[..n + 1] == findings[..n] + [findings[n]]
    ensures Kinds(findings[..n + 1]) == Kinds(findings[..n]) + {findings[n].kind}
  {
  }

  lemma KeysSnoc(i: InstanceId, kinds: set<Kind>, k: Kind)
    ensures Keys(i, kinds + {k}) == Keys(i, kinds) + {(i, k)}
  {
  }

  lemma KeyKinds(active: set<Key>, i: InstanceId, kinds: set<Kind>, k: Kind)
    ensures (i, k) in active + Keys(i, kinds) <==> k in KindsOf(active, i) || k in kinds
  {
    assert (i, k) in active <==> k in KindsOf(active, i);
  }

  lemma FindActive(rows: seq<Alert>, i: InstanceId, k: Kind)
    ensures Find(rows, i, k) < |rows| <==> (i, k) in Active(rows)
  {
  }

  /** The upsert of one finding: its key is active afterwards, and it was before exactly if the kind
      fired before the Sync or was already found in it. */
  lemma FireOne(rows: seq<Alert>, tx: seq<Alert>, i: InstanceId, seen: set<Kind>, f: Finding)
    requires OneFiring(tx) && Evolves(rows, tx, i) && Active(tx) == Active(rows) + Keys(i, seen)
    ensures var r := Upsert(tx, i, f);
            OneFiring(r) && Evolves(rows, r, i) && Active(r) == Active(rows) + Keys(i, seen + {f.kind})
    ensures Find(tx, i, f.kind) < |tx| <==> f.kind in KindsOf(Active(rows), i) || f.kind in seen
  {
    UpsertWorks(tx, i, f);
    EvolvesFurther(rows, tx, Upsert(tx, i, f), i);
    KeysSnoc(i, seen, f.kind);
    FindActive(tx, i, f.kind);
    KeyKinds(Active(rows), i, seen, f.kind);
  }

  lemma FireEmits(ups: seq<Transition>, i: InstanceId, seen: set<Kind>, before: set<Kind>, t: Transition)
    requires Emits(ups, i, Firing, seen - before) && t.instance == i && t.to == Firing
    ensures t.kind in before || t.kind in seen ==> Emits(ups, i, Firing, seen + {t.kind} - before)
    ensures t.kind !in before && t.kind !in seen ==> Emits(ups + [t], i, Firing, seen + {t.kind} - before)
  {
    if t.kind in before || t.kind in seen {
      assert seen + {t.kind} - before == seen - before;
    } else {
      EmitsMore(ups, i, Firing, seen - before, t);
      assert seen + {t.kind} - before == seen - before + {t.kind};
    }
  }

  /** The rows and transitions when the findings of these kinds have been upserted. */
  ghost predicate Fired(rows: seq<Alert>, tx: seq<Alert>, ups: seq<Transition>, i: InstanceId, kinds: set<Kind>) {
    && OneFiring(tx) && Evolves(rows, tx, i) && Active(tx) == Active(rows) + Keys(i, kinds)
    && Emits(ups, i, Firing, kinds - KindsOf(Active(rows), i))
  }

  lemma FireNext(rows: seq<Alert>, tx: seq<Alert>, ups: seq<Transition>, i: InstanceId, seen: set<Kind>, f: Finding)
    requires Fired(rows, tx, ups, i, seen)
    ensures var t := Transition(i, f.kind, Firing, f.severity, f.message);
            Fired(rows, Upsert(tx, i, f), if Find(tx, i, f.kind) < |tx| then ups else ups + [t], i, seen + {f.kind})
  {
    FireOne(rows, tx, i, seen, f);
    FireEmits(ups, i, seen, KindsOf(Active(rows), i), Transition(i, f.kind, Firing, f.severity, f.message));
  }

  /** A kind without a firing row has not been found before. */
  lemma NotYetFound(rows: seq<Alert>, tx: seq<Alert>, ups: seq<Transition>, i: InstanceId, findings: seq<Finding>,
                    f: Finding)
    requires Fired(rows, tx, ups, i, Kinds(findings)) && Find(tx, i, f.kind) == |tx|
    ensures FirstAt(findings, f.kind) == |findings|
  {
    FireOne(rows, tx, i, Kinds(findings), f);
    FoundFirst(findings, f.kind);
  }

  lemma FoundFirst(findings: seq<Finding>, k: Kind)
    ensures FirstAt(findings, k) < |findings| <==> k in Kinds(findings)
  {
    if FirstAt(findings, k) < |findings| {
      assert findings[FirstAt(findings, k)].kind in Kinds(findings);
    }
  }

  class Store {
    var rows: seq<Alert>

    constructor ()
      ensures rows == []
    {
      rows := [];
    }

    /** The statements run inside one transaction, so an error anywhere (`commits` false) leaves the
        table as it was and returns no transition. */
    method Sync(i: InstanceId, findings: seq<Finding>, commits: bool) returns (r: Result, ghost n: nat)
      requires OneFiring(rows)
      modifies this
      ensures r.Err? <==> !commits
      ensures r.Err? ==> rows == old(rows)
      ensures r.Ok? ==> Synced(old(rows), rows, i, Kinds(findings), r.transitions, n)
      ensures r.Ok? ==> ShowsAll(rows, i, findings) && Rewritten(old(rows), rows, i, Kinds(findings))
      ensures r.Ok? ==> Announces(r.transitions[..n], findings) && Recalls(r.transitions[n..], old(rows))
    {
      var tx, ups := Fire(rows, i, findings);
      var stale := Stale(tx, i, findings);
      ghost var before, kinds := KindsOf(Active(rows), i), Kinds(findings);
      SyncedKeys(Active(rows), i, kinds);
      var tx', downs := Clear(tx, i, stale, before - kinds, findings);
      n := |ups|;
      if !commits {
        return Err, n;
      }
      assert (ups + downs)[..n] == ups && (ups + downs)[n..] == downs;
      EvolvesFurther(rows, tx, tx', i);
      RefreshedThenRetired(rows, tx, tx', i, kinds, before - kinds);
      RecallsEarlier(downs, rows, tx, i, kinds);
      rows := tx';
      r := Ok(ups + downs);
    }

    /** Any run of Syncs, failed ones included: there is one firing row per key at most, the returned
        transitions replay to exactly the firing keys, and resolved rows have not changed. */
    method SyncAll(ops: seq<Op>) returns (history: seq<Transition>)
      requires OneFiring(rows)
      modifies this
      ensures OneFiring(rows) && ResolvedKept(old(rows), rows)
      ensures Legal(Active(old(rows)), history) && Replay(Active(old(rows)), history) == Active(rows)
    {
      history := [];
      ghost var start := Active(rows);
      for n := 0 to |ops|
        invariant OneFiring(rows) && ResolvedKept(old(rows), rows)
        invariant Legal(start, history) && Replay(start, history) == Active(rows)
      {
        ghost var mid := rows;
        var r;
        ghost var k;
        r, k := Sync(ops[n].instance, ops[n].findings, ops[n].commits);
        if r.Ok? {
          SyncReplays(mid, rows, ops[n].instance, Kinds(ops[n].findings), r.transitions, k);
          ReplayAppend(start, history, r.transitions);
          history := history + r.transitions;
        }
      }
    }
  }

  datatype Op = Op(instance: InstanceId, findings: seq<Finding>, commits: bool)

  ghost predicate ResolvedKept(rows: seq<Alert>, rows': seq<Alert>) {
    |rows| <= |rows'| && forall n :: 0 <= n < |rows| && rows[n].state == Resolved ==> rows'[n] == rows[n]
  }

  /** The first loop: upsert every finding; a kind that had no firing row yields a transition. */
  method Fire(rows: seq<Alert>, i: InstanceId, findings: seq<Finding>) returns (tx: seq<Alert>, ups: seq<Transition>)
    requires OneFiring(rows)
    ensures OneFiring(tx) && Evolves(rows, tx, i) && Active(tx) == Active(rows) + Keys(i, Kinds(findings))
    ensures Emits(ups, i, Firing, Kinds(findings) - KindsOf(Active(rows), i))
    ensures ShowsAll(tx, i, findings) && Refreshed(rows, tx, i, Kinds(findings)) && Announces(ups, findings)
  {
    tx, ups := rows, [];
    for n := 0 to |findings|
      invariant Fired(rows, tx, ups, i, Kinds(findings[..n])) && ShowsAll(tx, i, findings[..n])
      invariant Refreshed(rows, tx, i, Kinds(findings[..n])) && Announces(ups, findings[..n])
    {
      var f := findings[n];
      KindsSnoc(findings, n);
      FireNext(rows, tx, ups, i, Kinds(findings[..n]), f);
      UpsertShows(tx, i, f, findings[..n]);
      RefreshedNext(rows, tx, i, Kinds(findings[..n]), f);
      AnnouncesNext(ups, findings[..n], i, f);
      var existed := Find(tx, i, f.kind) < |tx|;
      if !existed {
        NotYetFound(rows, tx, ups, i, findings[..n], f);
      }
      tx := Upsert(tx, i, f);
      if !existed {
        ups := ups + [Transition(i, f.kind, Firing, f.severity, f.message)];
      }
    }
    assert findings[..|findings|] == findings;
  }

  /** The second loop: the firing rows of `i` whose kind was not found. */
  method Stale(tx: seq<Alert>, i: InstanceId, findings: seq<Finding>) returns (stale: seq<Alert>)
    requires OneFiring(tx)
    ensures forall m, n :: 0 <= m < n < |stale| ==> stale[m].kind != stale[n].kind
    ensures forall k :: (exists n :: 0 <= n < |stale| && stale[n].kind == k) <==>
                          (i, k) in Active(tx) && k !in Kinds(findings)
    ensures forall n :: 0 <= n < |stale| ==> stale[n] in tx && IsFiring(stale[n], i, stale[n].kind)
  {
    var firingKinds: set<Kind> := {};
    for n := 0 to |findings|
      invariant firingKinds == Kinds(findings[..n])
    {
      firingKinds := firingKinds + {findings[n].kind};
    }
    assert findings[..|findings|] == findings;
    stale := [];
    ghost var at: seq<nat> := [];
    for n := 0 to |tx|
      invariant Picked(tx, n, i, firingKinds, stale, at)
    {
      if tx[n].instance == i && tx[n].state == Firing && tx[n].kind !in firingKinds {
        stale, at := stale + [tx[n]], at + [n];
      }
    }
    StaleKinds(tx, i, findings, stale, at);
  }

  /** The rows picked so far are those at the positions `at`. */
  ghost predicate Picked(tx: seq<Alert>, n: nat, i: InstanceId, kinds: set<Kind>, stale: seq<Alert>, at: seq<nat>)
    requires n <= |tx|
  {
    && |at| == |stale|
    && (forall m :: 0 <= m < |at| ==>
          && at[m] < n && stale[m] == tx[at[m]]
          && IsFiring(tx[at[m]], i, stale[m].kind) && stale[m].kind !in kinds)
    && (forall m, l :: 0 <= m < l < |at| ==> at[m] < at[l])
    && (forall l :: 0 <= l < n && IsFiring(tx[l], i, tx[l].kind) && tx[l].kind !in kinds ==> l in at)
  }

  lemma StaleKinds(tx: seq<Alert>, i: InstanceId, findings: seq<Finding>, stale: seq<Alert>, at: seq<nat>)
    requires OneFiring(tx) && Picked(tx, |tx|, i, Kinds(findings), stale, at)
    ensures forall m, n :: 0 <= m < n < |stale| ==> stale[m].kind != stale[n].kind
    ensures forall k :: (exists n :: 0 <= n < |stale| && stale[n].kind == k) <==>
                          (i, k) in Active(tx) && k !in Kinds(findings)
  {
    forall k
      ensures (exists n :: 0 <= n < |stale| && stale[n].kind == k) <==> (i, k) in Active(tx) && k !in Kinds(findings)
    {
      if (i, k) in Active(tx) && k !in Kinds(findings) {
        var l :| 0 <= l < |tx| && IsFiring(tx[l], i, k);
        assert l in at;
        var m :| 0 <= m < |at| && at[m] == l;
        assert stale[m].kind == k;
      }
    }
  }

  /** The third loop: resolve each stale row and report it. */
  method Clear(rows: seq<Alert>, i: InstanceId, stale: seq<Alert>, ghost gone: set<Kind>, ghost findings: seq<Finding>)
    returns (tx: seq<Alert>, downs: seq<Transition>)
    requires OneFiring(rows) && ShowsAll(rows, i, findings) && gone !! Kinds(findings)
    requires forall m, n :: 0 <= m < n < |stale| ==> stale[m].kind != stale[n].kind
    requires forall k :: (exists n :: 0 <= n < |stale| && stale[n].kind == k) <==> k in gone
    requires forall n :: 0 <= n < |stale| ==> stale[n] in rows && IsFiring(stale[n], i, stale[n].kind)
    ensures Retired(rows, tx, i, gone) && Recalls(downs, rows)
    ensures OneFiring(tx) && Evolves(rows, tx, i) && Active(tx) == Active(rows) - Keys(i, gone)
    ensures Emits(downs, i, Resolved, gone) && ShowsAll(tx, i, findings)
  {
    tx, downs := rows, [];
    ghost var done: set<Kind> := {};
    for n := 0 to |stale|
      invariant Cleared(rows, tx, downs, i, done, findings)
      invariant forall k :: k in done <==> exists m :: 0 <= m < n && stale[m].kind == k
    {
      var k := stale[n].kind;
      assert k in gone && k !in done;
      ClearNext(rows, tx, downs, i, done, findings, stale[n]);
      tx := Resolve(tx, i, k);
      downs := downs + [Transition(i, k, Resolved, stale[n].severity, stale[n].message)];
      done := done + {k};
    }
    assert done == gone;
  }

  /** The rows and transitions when the stale rows of these kinds have been resolved. */
  ghost predicate Cleared(rows: seq<Alert>, tx: seq<Alert>, downs: seq<Transition>, i: InstanceId, done: set<Kind>,
                          findings: seq<Finding>)
  {
    && OneFiring(tx) && Evolves(rows, tx, i) && Active(tx) == Active(rows) - Keys(i, done)
    && Emits(downs, i, Resolved, done) && ShowsAll(tx, i, findings)
    && Retired(rows, tx, i, done) && Recalls(downs, rows)
  }

  lemma ClearNext(rows: seq<Alert>, tx: seq<Alert>, downs: seq<Transition>, i: InstanceId, done: set<Kind>,
                  findings: seq<Finding>, a: Alert)
    requires Cleared(rows, tx, downs, i, done, findings) && a in rows && IsFiring(a, i, a.kind)
    requires a.kind !in done && a.kind !in Kinds(findings)
    ensures Cleared(rows, Resolve(tx, i, a.kind), downs + [Transition(i, a.kind, Resolved, a.severity, a.message)], i,
                    done + {a.kind}, findings)
  {
    var t := Transition(i, a.kind, Resolved, a.severity, a.message);
    ResolveWorks(tx, i, a.kind);
    KeysSnoc(i, done, a.kind);
    forall m | 0 <= m < |findings| ensures findings[m].kind != a.kind {
      assert findings[m].kind in Kinds(findings);
    }
    ResolveShows(tx, i, a.kind, findings);
    RetiredNext(rows, tx, i, done, a.kind);
    RecallsMore(downs, rows, t, a);
    EmitsMore(downs, i, Resolved, done, t);
  }

  // ---------- histories ----------

  /** The firing set after replaying transitions. */
  ghost function Replay(active: set<Key>, ts: seq<Transition>): set<Key> {
    if ts == [] then active
    else
      var t := ts[|ts| - 1];
      var a := Replay(active, ts[..|ts| - 1]);
      if t.to == Firing then a + {(t.instance, t.kind)} else a - {(t.instance, t.kind)}
  }

  /** Every transition changes something: it fires what was not firing or resolves what was. */
  ghost predicate Legal(active: set<Key>, ts: seq<Transition>) {
    ts != [] ==>
      var t := ts[|ts| - 1];
      && Legal(active, ts[..|ts| - 1])
      && (t.to == Firing <==> (t.instance, t.kind) !in Replay(active, ts[..|ts| - 1]))
  }

  lemma {:induction false} ReplayAppend(active: set<Key>, a: seq<Transition>, b: seq<Transition>)
    ensures Replay(active, a + b) == Replay(Replay(active, a), b)
    ensures Legal(active, a) && Legal(Replay(active, a), b) ==> Legal(active, a + b)
  {
    if b == [] {
      assert a + b == a;
    } else {
      ReplayAppend(active, a, b[..|b| - 1]);
      assert (a + b)[..|a + b| - 1] == a + b[..|b| - 1];
    }
  }

  lemma KeysSplit(active: set<Key>, i: InstanceId, kinds: set<Kind>, k: Kind)
    requires k in kinds
    ensures active + Keys(i, kinds - {k}) + {(i, k)} == active + Keys(i, kinds)
    ensures active - Keys(i, kinds - {k}) - {(i, k)} == active - Keys(i, kinds)
    ensures (i, k) in active + Keys(i, kinds - {k}) <==> (i, k) in active
    ensures (i, k) in active - Keys(i, kinds - {k}) <==> (i, k) in active
  {
  }

  lemma {:induction false} ReplayEmits(active: set<Key>, ts: seq<Transition>, i: InstanceId, to: Condition,
                                       kinds: set<Kind>)
    requires Emits(ts, i, to, kinds)
    requires forall k :: k in kinds ==> ((i, k) in active <==> to == Resolved)
    ensures Legal(active, ts)
    ensures Replay(active, ts) == if to == Firing then active + Keys(i, kinds) else active - Keys(i, kinds)
    decreases |ts|
  {
    if ts == [] {
      assert forall k :: k !in kinds;
      assert Keys(i, kinds) == {};
    } else {
      var t, front := ts[|ts| - 1], ts[..|ts| - 1];
      forall k | k in kinds - {t.kind} ensures exists n :: 0 <= n < |front| && front[n].kind == k {
        var n :| 0 <= n < |ts| && ts[n].kind == k;
        assert front[n].kind == k;
      }
      ReplayEmits(active, front, i, to, kinds - {t.kind});
      KeysSplit(active, i, kinds, t.kind);
    }
  }

  /** One Sync's transitions, replayed on the firing set before it, give the firing set after it. */
  lemma SyncReplays(rows: seq<Alert>, rows': seq<Alert>, i: InstanceId, kinds: set<Kind>, ts: seq<Transition>, n: nat)
    requires Synced(rows, rows', i, kinds, ts, n)
    ensures Legal(Active(rows), ts) && Replay(Active(rows), ts) == Active(rows')
  {
    var active, before := Active(rows), KindsOf(Active(rows), i);
    var mid := active + Keys(i, kinds - before);
    ChangedKeys(active, i, kinds);
    ReplayEmits(active, ts[..n], i, Firing, kinds - before);
    ReplayEmits(mid, ts[n..], i, Resolved, before - kinds);
    ReplayAppend(active, ts[..n], ts[n..]);
    Halves(ts, n);
  }

  lemma Halves(ts: seq<Transition>, n: nat)
    requires n <= |ts|
    ensures ts[..n] + ts[n..] == ts
  {
  }

  lemma ChangedKeys(active: set<Key>, i: InstanceId, kinds: set<Kind>)
    ensures var before := KindsOf(active, i);
            var mid := active + Keys(i, kinds - before);
            && (forall k :: k in kinds - before ==> (i, k) !in active)
            && (forall k :: k in before - kinds ==> (i, k) in mid)
            && mid - Keys(i, before - kinds) == active - Keys(i, before) + Keys(i, kinds)
  {
  }

  /** The conditions a history reports for one key. */
  ghost function Project(ts: seq<Transition>, key: Key): seq<Condition> {
    if ts == [] then []
    else
      var rest, t := Project(ts[..|ts| - 1], key), ts[|ts| - 1];
      if (t.instance, t.kind) == key then rest + [t.to] else rest
  }

  /** Strictly alternating, starting with the given condition. */
  ghost predicate Alternates(cs: seq<Condition>, first: Condition) {
    forall n :: 0 <= n < |cs| ==> cs[n] == (if n % 2 == 0 then first else if first == Firing then Resolved else Firing)
  }

  /** In every legal history each key's transitions alternate, starting with firing unless the key
      was firing already, and the key fires at the end exactly if the last of them says so. */
  lemma {:induction false} HistoryAlternates(active: set<Key>, ts: seq<Transition>, key: Key)
    requires Legal(active, ts)
    ensures var cs := Project(ts, key);
            && Alternates(cs, if key in active then Resolved else Firing)
            && (key in Replay(active, ts) <==> if cs == [] then key in active else cs[|cs| - 1] == Firing)
  {
    if ts != [] {
      HistoryAlternates(active, ts[..|ts| - 1], key);
    }
  }
}
