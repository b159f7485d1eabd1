/** The backup catalog and its source, the pgBackRest repository (internal/backup/backup.go:96-272,
    internal/backup/catalog.go:24-66). */
module Catalog {
  import opened Optional

  type InstanceId = nat
  type Label = string
  type Thread = nat

  datatype Backup = Backup(tag: Label, info: int)

  /** A stanza as `pgbackrest info` reports it. */
  datatype Stanza = Stanza(healthy: bool, backups: seq<Backup>)

  type Table = map<(InstanceId, Label), int>
  type Listing = map<Label, int>

  // ---------- the table operations ----------

  function Upsert(table: Table, i: InstanceId, b: Backup): Table {
    table[(i, b.tag) := b.info]
  }

  function Prune(table: Table, i: InstanceId, keep: set<Label>): Table {
    map k | k in table && (k.0 != i || k.1 in keep) :: table[k]
  }

  /** The backups of a listing by label; a repeated label counts with its last entry. */
  function ByLabel(backups: seq<Backup>): (r: Listing)
    ensures forall l :: l in r <==> exists n :: 0 <= n < |backups| && backups[n].tag == l
  {
    if backups == [] then map[]
    else
      var b := backups[|backups| - 1];
      var rest := ByLabel(backups[..|backups| - 1]);
      assert backups == backups[..|backups| - 1] + [b];
      assert forall l :: l in rest || l == b.tag ==> exists n :: 0 <= n < |backups| && backups[n].tag == l by {
        assert backups[|backups| - 1].tag == b.tag;
        forall l | l in rest ensures exists n :: 0 <= n < |backups| && backups[n].tag == l {
          var n :| 0 <= n < |backups| - 1 && backups[..|backups| - 1][n].tag == l;
          assert backups[n].tag == l;
        }
      }
      rest[b.tag := b.info]
  }

  /** One instance's rows. */
  ghost function RowsOf(table: Table, i: InstanceId): Listing {
    map k | k in table && k.0 == i :: k.1 := table[k]
  }

  /** The rows of every other instance are the same. */
  ghost predicate OthersKept(table: Table, table': Table, i: InstanceId) {
    && (forall k :: k in table && k.0 != i ==> k in table' && table'[k] == table[k])
    && (forall k :: k in table' && k.0 != i ==> k in table)
  }

  /** The first rows of `backups` are in the table with their listed value. */
  ghost predicate Upserted(table: Table, i: InstanceId, backups: seq<Backup>) {
    var done := ByLabel(backups);
    forall l :: l in done ==> (i, l) in table && table[(i, l)] == done[l]
  }

  lemma ByLabelSnoc(backups: seq<Backup>, b: Backup)
    ensures ByLabel(backups + [b]) == ByLabel(backups)[b.tag := b.info]
  {
    assert (backups + [b])[..|backups|] == backups;
  }

  lemma UpsertNext(table: Table, i: InstanceId, backups: seq<Backup>, n: nat)
    requires n < |backups| && Upserted(table, i, backups[..n])
    ensures Upserted(Upsert(table, i, backups[n]), i, backups[..n + 1])
    ensures OthersKept(table, Upsert(table, i, backups[n]), i)
  {
    assert backups[..n + 1] == backups[..n] + [backups[n]];
    ByLabelSnoc(backups[..n], backups[n]);
  }

  ghost function Labels(backups: seq<Backup>): set<Label> {
    ByLabel(backups).Keys
  }

  lemma LabelsNext(backups: seq<Backup>, n: nat)
    requires n < |backups|
    ensures Labels(backups[..n + 1]) == Labels(backups[..n]) + {backups[n].tag}
  {
    assert backups[..n + 1] == backups[..n] + [backups[n]];
    ByLabelSnoc(backups[..n], backups[n]);
  }

  /** No row is missing. */
  ghost predicate NoneRemoved(table: Table, table': Table) {
    table.Keys <= table'.Keys
  }

  /** Upserting the whole listing and pruning to its labels makes the rows equal to the listing. */
  lemma PruneAgrees(table: Table, i: InstanceId, backups: seq<Backup>)
    requires Upserted(table, i, backups)
    ensures RowsOf(Prune(table, i, ByLabel(backups).Keys), i) == ByLabel(backups)
    ensures OthersKept(table, Prune(table, i, ByLabel(backups).Keys), i)
  {
    var listing := ByLabel(backups);
    var table' := Prune(table, i, listing.Keys);
    var rows := RowsOf(table', i);
    forall l ensures l in rows <==> l in listing {
      if l in rows {
        assert (i, l) in table';
      }
      if l in listing {
        assert (i, l) in table';
      }
    }
  }

  /** Rows with the first `n` backups of a listing written over them, in order. */
  function Overlaid(rows: Listing, backups: seq<Backup>, n: nat): Listing
    requires n <= |backups|
  {
    if n == 0 then rows else Overlaid(rows, backups, n - 1)[backups[n - 1].tag := backups[n - 1].info]
  }

  /** The rows of `i` are these. */
  ghost predicate Lists(table: Table, i: InstanceId, rows: Listing) {
    && (forall l :: l in rows ==> (i, l) in table && table[(i, l)] == rows[l])
    && (forall l :: (i, l) in table ==> l in rows)
  }

  lemma ListsRows(table: Table, i: InstanceId, rows: Listing)
    ensures Lists(table, i, rows) <==> RowsOf(table, i) == rows
  {
    if Lists(table, i, rows) {
      forall l ensures l in RowsOf(table, i) <==> l in rows {
        if l in rows { assert (i, l) in table; }
      }
    } else {
      var r := RowsOf(table, i);
      assert forall l :: (i, l) in table ==> l in r;
      assert forall l :: l in r ==> (i, l) in table && table[(i, l)] == r[l];
    }
  }

  lemma OverlaidNext(rows: Listing, table: Table, i: InstanceId, backups: seq<Backup>, n: nat)
    requires n < |backups| && Lists(table, i, Overlaid(rows, backups, n))
    ensures Lists(Upsert(table, i, backups[n]), i, Overlaid(rows, backups, n + 1))
  {
  }

  /** Nothing usable was reported. */
  predicate Useless(stanza: Option<Stanza>) {
    stanza.None? || (!stanza.value.healthy && stanza.value.backups == [])
  }

  /** The rows of an instance after a sync: the listing itself, or, if it was cut short, the old rows with the
      part of the listing that was upserted written over them. */
  ghost function RowsAfter(rows: Listing, stanza: Option<Stanza>, fails: Option<nat>, prunes: bool): Listing {
    if Useless(stanza) then rows
    else
      var backups := stanza.value.backups;
      if fails.Some? && fails.value < |backups| then Overlaid(rows, backups, fails.value)
      else if prunes then ByLabel(backups) else Overlaid(rows, backups, |backups|)
  }

  datatype Named = Named(name: string, stanza: Stanza)

  /** The loop that picks the instance's stanza out of the report; the last of that name counts. */
  method FindStanza(stanzas: seq<Named>, name: string) returns (r: Option<Stanza>)
    ensures r.None? <==> forall k :: 0 <= k < |stanzas| ==> stanzas[k].name != name
    ensures r.Some? ==> exists k :: 0 <= k < |stanzas| && stanzas[k] == Named(name, r.value)
                                    && forall m :: k < m < |stanzas| ==> stanzas[m].name != name
  {
    r := None;
    for n := 0 to |stanzas|
      invariant r.None? <==> forall k :: 0 <= k < n ==> stanzas[k].name != name
      invariant r.Some? ==> exists k :: 0 <= k < n && stanzas[k] == Named(name, r.value)
                                        && forall m :: k < m < n ==> stanzas[m].name != name
    {
      if stanzas[n].name == name {
        r := Some(stanzas[n].stanza);
      }
    }
  }

  /** The rest of sync for the stanza that was reported, if any.  `fails` is the upsert that errors, if any, and
      `prunes` whether the final delete succeeds. */
  method Refresh(table: Table, i: InstanceId, stanza: Option<Stanza>, fails: Option<nat>, prunes: bool)
    returns (ok: bool, table': Table)
    ensures OthersKept(table, table', i)
    ensures RowsOf(table', i) == RowsAfter(RowsOf(table, i), stanza, fails, prunes)
    ensures ok ==> stanza.Some? && RowsOf(table', i) == ByLabel(stanza.value.backups)
    ensures !ok ==> NoneRemoved(table, table')
    ensures Useless(stanza) ==> !ok && table' == table
    ensures ok <==> stanza.Some? && (stanza.value.healthy || stanza.value.backups != [])
                    && (fails.Some? ==> fails.value >= |stanza.value.backups|) && prunes
  {
    ok, table' := false, table;
    if stanza.None? || (!stanza.value.healthy && stanza.value.backups == []) {
      return;
    }
    var backups := stanza.value.backups;
    var labels;
    ListsRows(table, i, RowsOf(table, i));
    ok, table', labels := UpsertAll(table, i, backups, fails, RowsOf(table, i));
    ListsRows(table', i, Overlaid(RowsOf(table, i), backups, if ok then |backups| else fails.value));
    ok := ok && prunes;
    if ok {
      PruneAgrees(table', i, backups);
      OthersKeptTwice(table, table', Prune(table', i, labels), i);
      table' := Prune(table', i, labels);
    }
  }

  lemma OthersKeptTwice(a: Table, b: Table, c: Table, i: InstanceId)
    requires OthersKept(a, b, i) && OthersKept(b, c, i)
    ensures OthersKept(a, c, i)
  {
  }

  lemma UpsertGrows(a: Table, b: Table, i: InstanceId, x: Backup)
    requires NoneRemoved(a, b)
    ensures NoneRemoved(a, Upsert(b, i, x))
  {
  }

  lemma WholeListing(table: Table, i: InstanceId, backups: seq<Backup>)
    requires Upserted(table, i, backups[..|backups|])
    ensures Upserted(table, i, backups) && Labels(backups[..|backups|]) == Labels(backups)
  {
    assert backups[..|backups|] == backups;
  }

  /** Where the loop of sync stands before the n-th backup. */
  ghost predicate Upserting(table: Table, table': Table, i: InstanceId, backups: seq<Backup>, n: nat, rows: Listing,
                            labels: set<Label>)
    requires n <= |backups|
  {
    && Upserted(table', i, backups[..n]) && labels == Labels(backups[..n])
    && OthersKept(table, table', i) && NoneRemoved(table, table')
    && Lists(table', i, Overlaid(rows, backups, n))
  }

  lemma UpsertingNext(table: Table, table': Table, i: InstanceId, backups: seq<Backup>, n: nat, rows: Listing,
                      labels: set<Label>)
    requires n < |backups| && Upserting(table, table', i, backups, n, rows, labels)
    ensures Upserting(table, Upsert(table', i, backups[n]), i, backups, n + 1, rows, labels + {backups[n].tag})
  {
    LabelsNext(backups, n);
    OverlaidNext(rows, table', i, backups, n);
    UpsertNext(table', i, backups, n);
    OthersKeptTwice(table, table', Upsert(table', i, backups[n]), i);
    UpsertGrows(table, table', i, backups[n]);
  }

  /** The loop of sync: upsert each reported backup and collect its label, up to the first error. */
  method UpsertAll(table: Table, i: InstanceId, backups: seq<Backup>, fails: Option<nat>, ghost rows: Listing)
    returns (ok: bool, table': Table, labels: set<Label>)
    requires Lists(table, i, rows)
    ensures ok <==> (fails.Some? ==> fails.value >= |backups|)
    ensures ok ==> Upserted(table', i, backups) && labels == Labels(backups)
    ensures OthersKept(table, table', i) && NoneRemoved(table, table')
    ensures Lists(table', i, Overlaid(rows, backups, if ok then |backups| else fails.value))
  {
    table', labels := table, {};
    for n := 0 to |backups|
      invariant fails.Some? ==> n <= fails.value
      invariant Upserting(table, table', i, backups, n, rows, labels)
    {
      if fails.Some? && fails.value == n {
        return false, table', labels;
      }
      UpsertingNext(table, table', i, backups, n, rows, labels);
      table' := Upsert(table', i, backups[n]);
      labels := labels + {backups[n].tag};
    }
    WholeListing(table', i, backups);
    ok := true;
  }

  // ---------- operations of several threads, serialised per instance ----------

  /** Where an operation of one thread stands.  Run, Delete and Expire differ only in the pgBackRest
      command, so one operation covers them. */
  datatype Op =
    | NoOp
    | Waiting(i: InstanceId)
    | Holding(i: InstanceId)
    | Executed(i: InstanceId)
    | Syncing(i: InstanceId, stanza: Stanza, done: nat)
    | Succeeded(i: InstanceId, stanza: Stanza)
    | Failed(i: InstanceId)

  /** The repository's contents, the catalog table, and what each thread is doing.  `agreed` records
      the instances whose last repository change was followed by a successful sync of a healthy stanza. */
  datatype State = State(
    repo: map<InstanceId, Listing>, table: Table, ops: map<Thread, Op>, agreed: set<InstanceId>)

  /** `contents` is what the repository holds after the command, whatever it reports. */
  datatype Event =
    | Begin(t: Thread, i: InstanceId)
    | Acquire(t: Thread)
    | Exec(t: Thread, ok: bool, contents: Listing)
    | Info(t: Thread, report: Option<Stanza>)
    | UpsertOne(t: Thread, ok: bool)
    | PruneAll(t: Thread, ok: bool)
    | Release(t: Thread)

  /** The thread holds the lock of instance `i` from acquiring it until it releases it. */
  predicate Locks(op: Op, i: InstanceId) {
    (op.Holding? || op.Executed? || op.Syncing? || op.Succeeded? || op.Failed?) && op.i == i
  }

  predicate LockFree(s: State, i: InstanceId) {
    forall t | t in s.ops :: !Locks(s.ops[t], i)
  }

  /** `pgbackrest info` reports a healthy stanza's contents exactly; an unhealthy one may report less. */
  predicate Faithful(s: State, i: InstanceId, stanza: Stanza) {
    stanza.healthy ==> i in s.repo && ByLabel(stanza.backups) == s.repo[i]
  }

  function OpOf(s: State, t: Thread): Op {
    if t in s.ops then s.ops[t] else NoOp
  }

  /** One step of one thread; a step that is not possible changes nothing. */
  function Step(s: State, e: Event): State {
    var op := OpOf(s, e.t);
    match e
    case Begin(t, i) => if op.NoOp? then s.(ops := s.ops[t := Waiting(i)]) else s
    case Acquire(t) => if op.Waiting? && LockFree(s, op.i) then s.(ops := s.ops[t := Holding(op.i)]) else s
    case Exec(t, ok, contents) =>
      if op.Holding? then
        s.(repo := s.repo[op.i := contents], ops := s.ops[t := if ok then Executed(op.i) else Failed(op.i)],
            agreed := s.agreed - {op.i})
      else s
    case Info(t, report) =>
      if !op.Executed? then s
      else if report.Some? && (report.value.healthy || report.value.backups != [])
      then s.(ops := s.ops[t := Syncing(op.i, report.value, 0)])
      else s.(ops := s.ops[t := Failed(op.i)])
    case UpsertOne(t, ok) =>
      if !op.Syncing? || op.done >= |op.stanza.backups| then s
      else if ok then s.(table := Upsert(s.table, op.i, op.stanza.backups[op.done]),
          ops := s.ops[t := op.(done := op.done + 1)])
      else s.(ops := s.ops[t := Failed(op.i)])
    case PruneAll(t, ok) =>
      if !op.Syncing? || op.done < |op.stanza.backups| then s
      else if ok then
        s.(table := Prune(s.table, op.i, ByLabel(op.stanza.backups).Keys),
            ops := s.ops[t := Succeeded(op.i, op.stanza)],
           agreed := if op.stanza.healthy then s.agreed + {op.i} else s.agreed)
      else s.(ops := s.ops[t := Failed(op.i)])
    case Release(t) => if op.Succeeded? || op.Failed? then s.(ops := s.ops[t := NoOp]) else s
  }

  function RunAll(s: State, events: seq<Event>): State {
    if events == [] then s else Step(RunAll(s, events[..|events| - 1]), events[|events| - 1])
  }

  /** A report of a healthy stanza is exact. */
  predicate HonestStep(s: State, e: Event) {
    e.Info? && e.report.Some? && OpOf(s, e.t).Executed? ==> Faithful(s, OpOf(s, e.t).i, e.report.value)
  }

  /** Every report of a healthy stanza along the run is exact. */
  predicate Honest(s: State, events: seq<Event>) {
    events != [] ==>
      Honest(s, events[..|events| - 1]) && HonestStep(RunAll(s, events[..|events| - 1]), events[|events| - 1])
  }

  /** What an operation under way relies on; `honest` says whether the reports were. */
  ghost predicate OpOk(s: State, op: Op, honest: bool) {
    match op
    case Syncing(i, stanza, done) =>
      && done <= |stanza.backups| && Upserted(s.table, i, stanza.backups[..done]) && i !in s.agreed
      && (honest ==> Faithful(s, i, stanza))
    case Succeeded(i, stanza) =>
      RowsOf(s.table, i) == ByLabel(stanza.backups) && (honest ==> Faithful(s, i, stanza))
    case Executed(i) => i !in s.agreed
    case _ => true
  }

  ghost predicate Inv(s: State, honest: bool) {
    && (forall t :: t in s.ops ==> OpOk(s, s.ops[t], honest))
    && Exclusive(s.ops)
    && (honest ==> forall i :: i in s.agreed ==> i in s.repo && RowsOf(s.table, i) == s.repo[i])
  }

  /** A table change for `i` leaves the rows of other instances, and what other holders rely on, alone. */
  lemma OthersUndisturbed(s: State, table': Table, i: InstanceId, op: Op, honest: bool)
    requires OthersKept(s.table, table', i) && OpOk(s, op, honest)
    requires op.Syncing? || op.Succeeded? ==> op.i != i
    ensures OpOk(s.(table := table'), op, honest)
  {
    if op.Syncing? || op.Succeeded? {
      RowsUndisturbed(s.table, table', i, op.i);
    }
  }

  lemma RowsUndisturbed(table: Table, table': Table, i: InstanceId, j: InstanceId)
    requires OthersKept(table, table', i) && i != j
    ensures RowsOf(table', j) == RowsOf(table, j)
  {
    var a, b := RowsOf(table, j), RowsOf(table', j);
    forall l ensures l in a <==> l in b {
      if l in a { assert (j, l) in table; }
      if l in b { assert (j, l) in table'; }
    }
    forall l | l in a ensures a[l] == b[l] {
      assert (j, l) in table;
    }
  }

  ghost predicate Exclusive(ops: map<Thread, Op>) {
    forall t, u, i :: t in ops && u in ops && Locks(ops[t], i) && Locks(ops[u], i) ==> t == u
  }

  lemma LocksStayExclusive(s: State, e: Event)
    requires Exclusive(s.ops)
    ensures Exclusive(Step(s, e).ops)
  {
  }

  /** A table step of the thread syncing `i`, which nobody else is working on. */
  lemma TableStep(s: State, t: Thread, table': Table, op': Op, honest: bool)
    requires Inv(s, honest) && t in s.ops && s.ops[t].Syncing? && OthersKept(s.table, table', s.ops[t].i)
    requires Locks(op', s.ops[t].i) && OpOk(s.(table := table'), op', honest)
    ensures Inv(s.(table := table', ops := s.ops[t := op']), honest)
  {
    var i := s.ops[t].i;
    var s' := s.(table := table', ops := s.ops[t := op']);
    assert Locks(s.ops[t], i);
    forall u | u in s'.ops ensures OpOk(s', s'.ops[u], honest) {
      if u != t {
        assert Locks(s.ops[u], i) ==> u == t;
        OthersUndisturbed(s, table', i, s.ops[u], honest);
      }
    }
    forall j | honest && j in s'.agreed ensures j in s'.repo && RowsOf(s'.table, j) == s'.repo[j] {
      RowsUndisturbed(s.table, table', i, j);
    }
  }

  lemma UpsertKeeps(s: State, t: Thread, ok: bool, honest: bool)
    requires Inv(s, honest)
    ensures Inv(Step(s, UpsertOne(t, ok)), honest)
  {
    var op := OpOf(s, t);
    if op.Syncing? && op.done < |op.stanza.backups| && ok {
      UpsertNext(s.table, op.i, op.stanza.backups, op.done);
      TableStep(s, t, Upsert(s.table, op.i, op.stanza.backups[op.done]), op.(done := op.done + 1), honest);
    }
  }

  lemma PruneKeeps(s: State, t: Thread, ok: bool, honest: bool)
    requires Inv(s, honest)
    ensures Inv(Step(s, PruneAll(t, ok)), honest)
  {
    var op := OpOf(s, t);
    if op.Syncing? && op.done >= |op.stanza.backups| && ok {
      assert op.stanza.backups[..op.done] == op.stanza.backups;
      PruneAgrees(s.table, op.i, op.stanza.backups);
      TableStep(s, t, Prune(s.table, op.i, ByLabel(op.stanza.backups).Keys), Succeeded(op.i, op.stanza), honest);
      AgreedGrows(s, t, honest);
    }
  }

  /** The sync of a healthy stanza makes its instance agreed; nobody else relies on it not being. */
  lemma AgreedGrows(s: State, t: Thread, honest: bool)
    requires Inv(s, honest) && t in s.ops && s.ops[t].Syncing? && s.ops[t].done >= |s.ops[t].stanza.backups|
    requires var op := s.ops[t];
             Inv(s.(table := Prune(s.table, op.i, ByLabel(op.stanza.backups).Keys),
                    ops := s.ops[t := Succeeded(op.i, op.stanza)]), honest)
    ensures Inv(Step(s, PruneAll(t, true)), honest)
  {
    var i := s.ops[t].i;
    var s' := Step(s, PruneAll(t, true));
    var mid := s'.(agreed := s.agreed);
    assert Locks(mid.ops[t], i);
    forall u | u in s'.ops ensures OpOk(s', s'.ops[u], honest) {
      assert OpOk(mid, mid.ops[u], honest);
      assert Locks(mid.ops[u], i) ==> u == t;
    }
  }

  lemma ExecKeeps(s: State, t: Thread, ok: bool, contents: Listing, honest: bool)
    requires Inv(s, honest)
    ensures Inv(Step(s, Exec(t, ok, contents)), honest)
  {
    var op := OpOf(s, t);
    if op.Holding? {
      var s' := Step(s, Exec(t, ok, contents));
      assert Locks(s.ops[t], op.i);
      forall u | u in s'.ops ensures OpOk(s', s'.ops[u], honest) {
        if u != t {
          assert OpOk(s, s.ops[u], honest);
          assert Locks(s.ops[u], op.i) ==> u == t;
        }
      }
    }
  }

  lemma StepKeeps(s: State, e: Event, honest: bool)
    requires Inv(s, honest) && (honest ==> HonestStep(s, e))
    ensures Inv(Step(s, e), honest)
  {
    LocksStayExclusive(s, e);
    match e
    case Exec(t, ok, contents) => ExecKeeps(s, t, ok, contents, honest);
    case UpsertOne(t, ok) => UpsertKeeps(s, t, ok, honest);
    case PruneAll(t, ok) => PruneKeeps(s, t, ok, honest);
    case _ =>
  }

  ghost predicate Initial(s: State) {
    s.ops == map[] && s.agreed == {}
  }

  lemma {:induction false} RunKeeps(s: State, events: seq<Event>, honest: bool)
    requires Initial(s) && (honest ==> Honest(s, events))
    ensures Inv(RunAll(s, events), honest)
  {
    if events != [] {
      RunKeeps(s, events[..|events| - 1], honest);
      StepKeeps(RunAll(s, events[..|events| - 1]), events[|events| - 1], honest);
    }
  }

  /** Under every interleaving no two operations hold the lock of one instance. */
  lemma OneHolder(s: State, events: seq<Event>, t: Thread, u: Thread, i: InstanceId)
    requires Initial(s) && Locks(OpOf(RunAll(s, events), t), i) && Locks(OpOf(RunAll(s, events), u), i)
    ensures t == u
  {
    RunKeeps(s, events, false);
  }

  /** Catalog agreement: under every interleaving and whatever was reported, an operation that succeeded
      has left its instance's rows equal to the listing it saw, label for label.  If the reports of
      healthy stanzas were exact, its rows equal the repository when its stanza was healthy, and they do
      as long as the instance's last change was followed by a successful sync of a healthy stanza. */
  lemma CatalogAgrees(s: State, events: seq<Event>, t: Thread, i: InstanceId)
    requires Initial(s)
    ensures var r := RunAll(s, events);
            && (OpOf(r, t).Succeeded? ==> RowsOf(r.table, OpOf(r, t).i) == ByLabel(OpOf(r, t).stanza.backups))
            && (Honest(s, events) && OpOf(r, t).Succeeded? && OpOf(r, t).stanza.healthy ==>
                  OpOf(r, t).i in r.repo && RowsOf(r.table, OpOf(r, t).i) == r.repo[OpOf(r, t).i])
            && (Honest(s, events) && i in r.agreed ==> i in r.repo && RowsOf(r.table, i) == r.repo[i])
  {
    RunKeeps(s, events, false);
    if Honest(s, events) {
      RunKeeps(s, events, true);
    }
  }

  /** On errors no row is removed: a row disappears only in the prune of a sync that succeeds, which
      belongs to the row's own instance and whose listing lacks the label. */
  lemma OnlySuccessRemoves(s: State, e: Event, k: (InstanceId, Label))
    requires k in s.table && k !in Step(s, e).table
    ensures e.PruneAll? && e.ok && OpOf(Step(s, e), e.t).Succeeded? && OpOf(Step(s, e), e.t).i == k.0
    ensures k.1 !in ByLabel(OpOf(Step(s, e), e.t).stanza.backups)
  {
  }

  /** A step changes rows of the instance its thread is syncing, and no others. */
  lemma StepsOnOwnRows(s: State, e: Event)
    ensures OpOf(s, e.t).Syncing? ==> OthersKept(s.table, Step(s, e).table, OpOf(s, e.t).i)
    ensures !OpOf(s, e.t).Syncing? ==> Step(s, e).table == s.table
  {
  }

  /** Thread `t` is in the same sync all along. */
  predicate InSync(s: State, events: seq<Event>, t: Thread) {
    OpOf(RunAll(s, events), t).Syncing? && (events != [] ==> InSync(s, events[..|events| - 1], t))
  }

  /** The steps of a sync are those of `Refresh`, whatever other threads do in between: at every point the
      instance's rows are those `Refresh` leaves when the next upsert fails. */
  lemma SyncRows(s: State, events: seq<Event>, t: Thread)
    requires Inv(s, false) && InSync(s, events, t) && OpOf(s, t).Syncing? && OpOf(s, t).done == 0
    ensures var op := OpOf(s, t); var op' := OpOf(RunAll(s, events), t);
            && op' == op.(done := op'.done) && op'.done <= |op.stanza.backups|
            && RowsOf(RunAll(s, events).table, op.i)
               == Overlaid(RowsOf(s.table, op.i), op.stanza.backups, op'.done)
  {
    var op := OpOf(s, t);
    ListsRows(s.table, op.i, RowsOf(s.table, op.i));
    SyncLists(s, events, t, RowsOf(s.table, op.i));
    var op' := OpOf(RunAll(s, events), t);
    ListsRows(RunAll(s, events).table, op.i, Overlaid(RowsOf(s.table, op.i), op.stanza.backups, op'.done));
  }

  lemma {:induction false} SyncLists(s: State, events: seq<Event>, t: Thread, rows: Listing)
    requires Inv(s, false) && InSync(s, events, t) && OpOf(s, t).Syncing? && OpOf(s, t).done == 0
    requires Lists(s.table, OpOf(s, t).i, rows)
    ensures Inv(RunAll(s, events), false) && Synced(RunAll(s, events), t, OpOf(s, t), rows)
  {
    if events != [] {
      var front, e := events[..|events| - 1], events[|events| - 1];
      SyncLists(s, front, t, rows);
      StepKeeps(RunAll(s, front), e, false);
      SyncStep(RunAll(s, front), e, t, OpOf(s, t), rows);
    }
  }

  /** The sync `op` of thread `t`, which found `rows`, has written what it counts as done. */
  ghost predicate Synced(s: State, t: Thread, op: Op, rows: Listing)
    requires op.Syncing?
  {
    var op' := OpOf(s, t);
    && op'.Syncing? && op' == op.(done := op'.done) && op'.done <= |op.stanza.backups|
    && Lists(s.table, op.i, Overlaid(rows, op.stanza.backups, op'.done))
  }

  lemma SyncStep(s: State, e: Event, t: Thread, op: Op, rows: Listing)
    requires op.Syncing? && Inv(s, false) && Synced(s, t, op, rows) && OpOf(Step(s, e), t).Syncing?
    ensures Synced(Step(s, e), t, op, rows)
  {
    if e.t != t {
      OthersStep(s, e, t);
      var now := Overlaid(rows, op.stanza.backups, OpOf(s, t).done);
      ListsRows(s.table, op.i, now);
      ListsRows(Step(s, e).table, op.i, now);
    } else if e.UpsertOne? && e.ok && OpOf(s, t).done < |op.stanza.backups| {
      OverlaidNext(rows, s.table, op.i, op.stanza.backups, OpOf(s, t).done);
    }
  }

  /** The steps of other threads leave the rows of a sync alone. */
  lemma OthersStep(s: State, e: Event, t: Thread)
    requires Inv(s, false) && OpOf(s, t).Syncing? && e.t != t
    ensures OpOf(Step(s, e), t) == OpOf(s, t)
    ensures RowsOf(Step(s, e).table, OpOf(s, t).i) == RowsOf(s.table, OpOf(s, t).i)
  {
    StepsOnOwnRows(s, e);
    if OpOf(s, e.t).Syncing? {
      assert Locks(OpOf(s, t), OpOf(s, t).i) && Locks(OpOf(s, e.t), OpOf(s, e.t).i);
      RowsUndisturbed(s.table, Step(s, e).table, OpOf(s, e.t).i, OpOf(s, t).i);
    }
  }

  // ---------- what an operation's calls lead to ----------

  /** The calls of the operation thread `t` is in, from its beginning, as far as they took effect. */
  function Trail(s: State, events: seq<Event>, t: Thread): seq<Event> {
    if events == [] then []
    else
      var front, e := events[..|events| - 1], events[|events| - 1];
      var before, after := OpOf(RunAll(s, front), t), OpOf(RunAll(s, events), t);
      if before == after then Trail(s, front, t) else if before.NoOp? then [e] else Trail(s, front, t) + [e]
  }

  predicate Usable(report: Option<Stanza>) {
    !Useless(report)
  }

  /** The trail of an operation on `i` that has had its command executed and reported ok. */
  ghost predicate Ran(trail: seq<Event>, t: Thread, i: InstanceId) {
    && |trail| == 3 && trail[0] == Begin(t, i) && trail[1] == Acquire(t)
    && trail[2].Exec? && trail[2].t == t && trail[2].ok
  }

  /** ... and has then seen a usable report of `stanza` and upserted `done` of its backups. */
  ghost predicate Upserts(trail: seq<Event>, t: Thread, i: InstanceId, stanza: Stanza, done: nat) {
    && |trail| == 4 + done && Ran(trail[..3], t, i) && trail[3] == Info(t, Some(stanza)) && Usable(Some(stanza))
    && done <= |stanza.backups| && forall n :: 4 <= n < |trail| ==> trail[n] == UpsertOne(t, true)
  }

  /** The call failed. */
  predicate Fails(e: Event) {
    match e
    case Exec(_, ok, _) => !ok
    case Info(_, report) => !Usable(report)
    case UpsertOne(_, ok) => !ok
    case PruneAll(_, ok) => !ok
    case _ => false
  }

  /** What the calls so far say about where the operation stands. */
  ghost predicate Earned(op: Op, trail: seq<Event>, t: Thread) {
    match op
    case NoOp => true
    case Waiting(i) => trail == [Begin(t, i)]
    case Holding(i) => trail == [Begin(t, i), Acquire(t)]
    case Executed(i) => Ran(trail, t, i)
    case Syncing(i, stanza, done) => Upserts(trail, t, i, stanza, done)
    case Succeeded(i, stanza) =>
      && trail != [] && trail[|trail| - 1] == PruneAll(t, true)
      && Upserts(trail[..|trail| - 1], t, i, stanza, |stanza.backups|)
    case Failed(i) =>
      trail != [] && Fails(trail[|trail| - 1]) && forall n :: 0 <= n < |trail| - 1 ==> !Fails(trail[n])
  }

  lemma EarnedNext(s: State, e: Event, t: Thread, trail: seq<Event>)
    requires Inv(s, false) && Earned(OpOf(s, t), trail, t) && OpOf(Step(s, e), t) != OpOf(s, t)
    ensures Earned(OpOf(Step(s, e), t), if OpOf(s, t).NoOp? then [e] else trail + [e], t)
  {
    assert e.t == t;
    match OpOf(s, t)
    case Executed(_) => assert (trail + [e])[..3] == trail;
    case Syncing(_, _, _) =>
      assert (trail + [e])[..3] == trail[..3];
      assert (trail + [e])[..|trail|] == trail;
    case _ =>
  }

  /** An operation has succeeded exactly after a command that reported ok, a usable report, an upsert that
      worked for each listed backup and a prune that worked, in this order; it has failed exactly after a
      first call that failed. */
  lemma {:induction false} SuccessIsEarned(s: State, events: seq<Event>, t: Thread)
    requires Initial(s)
    ensures Earned(OpOf(RunAll(s, events), t), Trail(s, events, t), t)
  {
    if events != [] {
      var front, e := events[..|events| - 1], events[|events| - 1];
      SuccessIsEarned(s, front, t);
      RunKeeps(s, front, false);
      if OpOf(RunAll(s, events), t) != OpOf(RunAll(s, front), t) {
        EarnedNext(RunAll(s, front), e, t, Trail(s, front, t));
      }
    }
  }

  /** The events of one thread. */
  function Mine(events: seq<Event>, t: Thread): seq<Event> {
    if events == [] then []
    else
      var e := events[|events| - 1];
      Mine(events[..|events| - 1], t) + (if e.t == t then [e] else [])
  }

  /** A call of an operation that holds its lock. */
  predicate Call(e: Event) {
    e.Exec? || e.Info? || e.UpsertOne? || e.PruneAll?
  }

  /** Where an operation stands depends on its own calls alone. */
  lemma {:induction false} MineDecides(s: State, events: seq<Event>, t: Thread)
    requires forall e :: e in Mine(events, t) ==> Call(e)
    ensures OpOf(RunAll(s, events), t) == OpOf(RunAll(s, Mine(events, t)), t)
  {
    if events != [] {
      var front, e := events[..|events| - 1], events[|events| - 1];
      var mine := Mine(front, t);
      MineDecides(s, front, t);
      if e.t == t {
        assert Mine(events, t) == mine + [e] && (mine + [e])[..|mine|] == mine;
        assert Call(e);
        CallDecides(RunAll(s, front), RunAll(s, mine), e, t);
      } else {
        assert Mine(events, t) == mine;
        OthersCall(RunAll(s, front), e, t);
      }
    }
  }

  lemma CallDecides(s: State, s': State, e: Event, t: Thread)
    requires Call(e) && e.t == t && OpOf(s, t) == OpOf(s', t)
    ensures OpOf(Step(s, e), t) == OpOf(Step(s', e), t)
  {
  }

  lemma OthersCall(s: State, e: Event, t: Thread)
    requires e.t != t
    ensures OpOf(Step(s, e), t) == OpOf(s, t)
  {
  }

  /** The upserts with these outcomes. */
  function Attempts(t: Thread, oks: seq<bool>): seq<Event> {
    if oks == [] then [] else Attempts(t, oks[..|oks| - 1]) + [UpsertOne(t, oks[|oks| - 1])]
  }

  lemma {:induction false} AttemptsLead(s: State, t: Thread, stanza: Stanza, oks: seq<bool>)
    requires OpOf(s, t).Syncing? && OpOf(s, t).stanza == stanza && OpOf(s, t).done == 0
    requires |oks| <= |stanza.backups|
    ensures OpOf(RunAll(s, Attempts(t, oks)), t) ==
              if false in oks then Failed(OpOf(s, t).i) else Syncing(OpOf(s, t).i, stanza, |oks|)
    ensures RunAll(s, Attempts(t, oks)).repo == s.repo
  {
    if oks != [] {
      var front, ok := oks[..|oks| - 1], oks[|oks| - 1];
      AttemptsLead(s, t, stanza, front);
      More(s, Attempts(t, front), UpsertOne(t, ok));
      AttemptLeads(RunAll(s, Attempts(t, front)), t, ok);
      InSnoc(oks);
    }
  }

  lemma AttemptLeads(s: State, t: Thread, ok: bool)
    ensures var op, op' := OpOf(s, t), OpOf(Step(s, UpsertOne(t, ok)), t);
            && Step(s, UpsertOne(t, ok)).repo == s.repo
            && (op.Failed? ==> op' == op)
            && (op.Syncing? && op.done < |op.stanza.backups| ==>
                  op' == if ok then op.(done := op.done + 1) else Failed(op.i))
  {
  }

  lemma InSnoc(oks: seq<bool>)
    requires oks != []
    ensures false in oks <==> false in oks[..|oks| - 1] || !oks[|oks| - 1]
  {
    assert oks == oks[..|oks| - 1] + [oks[|oks| - 1]];
  }

  lemma {:induction false} RunTwice(s: State, a: seq<Event>, b: seq<Event>)
    ensures RunAll(s, a + b) == RunAll(RunAll(s, a), b)
  {
    if b == [] {
      assert a + b == a;
    } else {
      RunTwice(s, a, b[..|b| - 1]);
      assert (a + b)[..|a + b| - 1] == a + b[..|b| - 1];
    }
  }

  /** A failed operation stays failed whatever it still calls. */
  lemma {:induction false} FailedForGood(s: State, t: Thread, calls: seq<Event>)
    requires OpOf(s, t).Failed? && forall e :: e in calls ==> Call(e)
    ensures OpOf(RunAll(s, calls), t) == OpOf(s, t)
  {
    if calls != [] {
      FailedForGood(s, t, calls[..|calls| - 1]);
      assert Call(calls[|calls| - 1]);
    }
  }

  /** All calls of an operation. */
  function Calls(t: Thread, ok: bool, contents: Listing, report: Option<Stanza>, oks: seq<bool>, prunes: bool)
    : seq<Event>
  {
    [Exec(t, ok, contents)] + [Info(t, report)] + Attempts(t, oks) + [PruneAll(t, prunes)]
  }

  lemma {:induction false} AttemptsAreCalls(t: Thread, oks: seq<bool>)
    ensures forall e :: e in Attempts(t, oks) ==> Call(e)
  {
    if oks != [] {
      AttemptsAreCalls(t, oks[..|oks| - 1]);
    }
  }

  lemma FirstCalls(s: State, t: Thread, ok: bool, contents: Listing, report: Option<Stanza>)
    requires OpOf(s, t).Holding?
    ensures var i := OpOf(s, t).i; var r := RunAll(s, [Exec(t, ok, contents)] + [Info(t, report)]);
            && r.table == s.table && r.repo == s.repo[i := contents]
            && OpOf(r, t) == if ok && Usable(report) then Syncing(i, report.value, 0) else Failed(i)
  {
    var e1, e2 := Exec(t, ok, contents), Info(t, report);
    RunTwice(s, [e1], [e2]);
    assert RunAll(s, [e1]) == Step(s, e1) by { assert [e1][..0] == []; }
    assert RunAll(Step(s, e1), [e2]) == Step(Step(s, e1), e2) by { assert [e2][..0] == []; }
  }

  /** An operation that holds its lock and makes its calls, whatever other threads do in between, has
      succeeded if all of them worked, and failed otherwise. */
  lemma OutcomeExactly(s: State, events: seq<Event>, t: Thread, ok: bool, contents: Listing, report: Option<Stanza>,
                       oks: seq<bool>, prunes: bool)
    requires OpOf(s, t).Holding? && Mine(events, t) == Calls(t, ok, contents, report, oks, prunes)
    requires Usable(report) ==> |oks| == |report.value.backups|
    ensures OpOf(RunAll(s, events), t) ==
              if ok && Usable(report) && false !in oks && prunes then Succeeded(OpOf(s, t).i, report.value)
              else Failed(OpOf(s, t).i)
  {
    var first, rest := [Exec(t, ok, contents)] + [Info(t, report)], Attempts(t, oks);
    AttemptsAreCalls(t, oks);
    MineDecides(s, events, t);
    FirstCalls(s, t, ok, contents, report);
    More(s, first + rest, PruneAll(t, prunes));
    RunTwice(s, first, rest);
    var r := RunAll(s, first);
    if ok && Usable(report) {
      AttemptsLead(r, t, report.value, oks);
    } else {
      FailedForGood(r, t, rest);
    }
    PruneLeads(RunAll(r, rest), t, prunes);
  }

  lemma PruneLeads(s: State, t: Thread, ok: bool)
    ensures var op, op' := OpOf(s, t), OpOf(Step(s, PruneAll(t, ok)), t);
            && (op.Failed? ==> op' == op)
            && (op.Syncing? && op.done == |op.stanza.backups| ==>
                  op' == if ok then Succeeded(op.i, op.stanza) else Failed(op.i))
  {
  }

  /** The command changes the repository of its own instance, whatever it reports, and no other. */
  lemma CommandWrites(s: State, t: Thread, ok: bool, contents: Listing)
    ensures Step(s, Exec(t, ok, contents)).repo ==
              if OpOf(s, t).Holding? then s.repo[OpOf(s, t).i := contents] else s.repo
  {
  }

  /** In every reachable state, an operation that has ended can release its lock, and then any operation that
      waits for it can take it. */
  lemma ReleaseLetsIn(s: State, events: seq<Event>, t: Thread, u: Thread)
    requires Initial(s) && t != u
    requires var r := RunAll(s, events);
             && (OpOf(r, t).Succeeded? || OpOf(r, t).Failed?) && OpOf(r, u) == Waiting(OpOf(r, t).i)
    ensures var r := RunAll(s, events);
            && OpOf(Step(r, Acquire(u)), u).Waiting?
            && OpOf(Step(r, Release(t)), t).NoOp?
            && OpOf(Step(Step(r, Release(t)), Acquire(u)), u) == Holding(OpOf(r, t).i)
  {
    RunKeeps(s, events, false);
    var r := RunAll(s, events);
    assert Locks(OpOf(r, t), OpOf(r, t).i);
  }

  // ---------- the limit of the guard ----------

  lemma More(s: State, events: seq<Event>, e: Event)
    ensures RunAll(s, events + [e]) == Step(RunAll(s, events), e)
    ensures Honest(s, events) && HonestStep(RunAll(s, events), e) ==> Honest(s, events + [e])
  {
    assert (events + [e])[..|events|] == events;
  }

  /** A sync of thread `t` whose upserts all work, up to the prune. */
  lemma {:induction false} UpsertsAll(s: State, before: seq<Event>, t: Thread, n: nat) returns (events: seq<Event>)
    requires Honest(s, before) && OpOf(RunAll(s, before), t).Syncing?
    requires OpOf(RunAll(s, before), t).done + n == |OpOf(RunAll(s, before), t).stanza.backups|
    ensures Honest(s, events) && RunAll(s, events).repo == RunAll(s, before).repo
    ensures OpOf(RunAll(s, events), t) == OpOf(RunAll(s, before), t).(done := OpOf(RunAll(s, before), t).done + n)
    decreases n
  {
    events := before;
    if n > 0 {
      More(s, before, UpsertOne(t, true));
      events := UpsertsAll(s, before + [UpsertOne(t, true)], t, n - 1);
    }
  }

  /** Thread `t` changes the repository of `i` and sees an unhealthy stanza with these backups. */
  lemma UpToReport(s: State, t: Thread, i: InstanceId, contents: Listing, stanza: Stanza) returns (events: seq<Event>)
    requires Initial(s) && !stanza.healthy && stanza.backups != []
    ensures Honest(s, events)
    ensures var r := RunAll(s, events); OpOf(r, t) == Syncing(i, stanza, 0) && i in r.repo && r.repo[i] == contents
  {
    var e1, e2 := Begin(t, i), Acquire(t);
    More(s, [], e1);
    assert [] + [e1] == [e1];
    More(s, [e1], e2);
    assert LockFree(RunAll(s, [e1]), i);
    var e12 := [e1] + [e2];
    More(s, e12, Exec(t, true, contents));
    More(s, e12 + [Exec(t, true, contents)], Info(t, Some(stanza)));
    events := e12 + [Exec(t, true, contents)] + [Info(t, Some(stanza))];
  }

  /** An unhealthy stanza that still reports some backups is trusted: from every start, for every
      instance, repository contents and such report, there is a run with exact healthy reports in
      which the operation succeeds and a backup that the repository holds but the report lacks has
      lost its row. */
  lemma UnhealthyListingHidesBackups(s: State, t: Thread, i: InstanceId, contents: Listing, stanza: Stanza, l: Label)
    returns (events: seq<Event>)
    requires Initial(s) && !stanza.healthy && stanza.backups != [] && l in contents && l !in ByLabel(stanza.backups)
    ensures Honest(s, events)
    ensures var r := RunAll(s, events);
            OpOf(r, t) == Succeeded(i, stanza) && i in r.repo && l in r.repo[i] && (i, l) !in r.table
  {
    events := UpToReport(s, t, i, contents, stanza);
    events := UpsertsAll(s, events, t, |stanza.backups|);
    More(s, events, PruneAll(t, true));
    events := events + [PruneAll(t, true)];
  }
}
