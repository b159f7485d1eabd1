/** Non-interference of the reconciler with a failover (internal/reconcile/reconcile.go:71-77 and
    internal/failover/failover.go:272-277): passes that are not interrupted never change an instance
    another operation owns, and act on the rows as the reconciler's own model says. */
module FailoverReconcile {
  import opened Fleet
  import opened Optional
  import opened FailoverProtocol
  import opened FailoverMark
  import opened FailoverElection
  import Reconcile

  // ---------- uninterrupted passes ----------

  /** The reconciler alone takes these steps. */
  function Passes(s: State, chs: seq<Choice>): State {
    if chs == [] then s else Step(Passes(s, chs[..|chs| - 1]), Reconciler(chs[|chs| - 1]))
  }

  /** The pass under way read a row for `i` that it will leave alone. */
  predicate WillSpare(rec: Pass, i: InstanceId) {
    match rec
    case NoPass => true
    case Listed(rows) => i in rows && LeftAlone(rows[i].status)
    case Working(rows, _, _) => i in rows && LeftAlone(rows[i].status)
    case Inspected(rows, _, todo, _, _) => i in rows && LeftAlone(rows[i].status) && todo != [] && todo[0] != i
  }

  lemma StepSparesRow(w: World, rec: Pass, ch: Choice, i: InstanceId)
    requires i in w.rows && WillSpare(rec, i)
    ensures var w' := ReconcilerStep(w, rec, ch).0; i in w'.rows && w'.rows[i] == w.rows[i]
  {
  }

  lemma StepWillSpare(w: World, rec: Pass, ch: Choice, i: InstanceId)
    requires i in w.rows && LeftAlone(w.rows[i].status) && WillSpare(rec, i)
    ensures WillSpare(ReconcilerStep(w, rec, ch).1, i)
  {
  }

  lemma StepSpares(s: State, ch: Choice, i: InstanceId)
    requires i in s.w.rows && LeftAlone(s.w.rows[i].status) && WillSpare(s.rec, i)
    ensures var s' := Step(s, Reconciler(ch));
            i in s'.w.rows && s'.w.rows[i] == s.w.rows[i] && WillSpare(s'.rec, i) && s'.pc == s.pc
  {
    StepSparesRow(s.w, s.rec, ch, i);
    StepWillSpare(s.w, s.rec, ch, i);
  }

  /** However many steps the reconciler takes from the start of a pass, an instance that another
      operation owns keeps its row. */
  lemma {:induction false} PassesSpare(s: State, chs: seq<Choice>, i: InstanceId)
    requires s.rec.NoPass? && i in s.w.rows && LeftAlone(s.w.rows[i].status)
    ensures var s' := Passes(s, chs);
            i in s'.w.rows && s'.w.rows[i] == s.w.rows[i] && WillSpare(s'.rec, i) && s'.pc == s.pc
  {
    if chs != [] {
      PassesSpare(s, chs[..|chs| - 1], i);
      StepSpares(Passes(s, chs[..|chs| - 1]), chs[|chs| - 1], i);
    }
  }

  // ---------- a whole pass ----------

  /** A row as the reconciler's model has it; the protocol does not look at ports. */
  function Lift(row: Row): Reconcile.InstanceRow {
    Reconcile.InstanceRow(row.status, row.cid, 0)
  }

  function LiftAll(rows: map<InstanceId, Row>): Reconcile.Rows {
    map i | i in rows :: Lift(rows[i])
  }

  /** A pass that has begun with these steps has not come to its end. */
  predicate Unfinished(s: State, chs: seq<Choice>) {
    chs != [] ==> !Passes(s, chs).rec.NoPass? && Unfinished(s, chs[..|chs| - 1])
  }

  /** The steps are those of one pass, up to its end. */
  predicate OnePass(s: State, chs: seq<Choice>) {
    chs != [] && Passes(s, chs).rec.NoPass? && Unfinished(s, chs[..|chs| - 1])
  }

  /** What the calls of a pass reported so far. */
  datatype Report = Report(seen: Reconcile.Inspections, ok: Reconcile.Writes)

  const NOTHING := Report(map[], Reconcile.Writes({}, {}))

  /** The report speaks of the first `n` instances alone, and tells the state of their containers. */
  ghost predicate Truthful(w: World, n: nat, rep: Report)
    requires n <= |w.order|
  {
    && (forall i :: i in rep.ok.runtime || i in rep.ok.status ==> i in w.order[..n])
    && (forall c :: c in rep.seen ==>
          && Exists(w, c) && w.born[c] in w.order[..n]
          && rep.seen[c] == Reconcile.Inspection(w.containers[w.born[c]].running, 0))
  }

  /** What the pass makes of the row of `i`. */
  ghost function Settled(w: World, rep: Report, i: InstanceId): Reconcile.InstanceRow
    requires i in w.rows
  {
    var found := if i in w.containers then Some(w.containers[i].id) else None;
    Reconcile.Settle(Lift(w.rows[i]), found, rep.seen, i in rep.ok.runtime, i in rep.ok.status)
  }

  /** The first `n` instances have been dealt with. */
  ghost predicate Sofar(w0: World, w: World, n: nat, rep: Report)
    requires n <= |w0.order|
  {
    w.rows.Keys == w0.rows.Keys && forall j :: j in w0.rows ==> RowSofar(w0, w, j in w0.order[..n], rep, j)
  }

  /** The row has been settled, or not been touched. */
  ghost predicate RowSofar(w0: World, w: World, done: bool, rep: Report, j: InstanceId)
    requires j in w0.rows && j in w.rows
  {
    Lift(w.rows[j]) == if done then Settled(w0, rep, j) else Lift(w0.rows[j])
  }

  /** The pass has come to position `n` of its list. */
  ghost predicate WorkingAt(w0: World, w: World, rec: Pass, rep: Report, n: nat)
    requires rec.Working?
  {
    && n <= |w0.order| && rec.rows == w0.rows && rec.found == Found(w0) && rec.todo == w0.order[n..]
    && Truthful(w0, n, rep) && Sofar(w0, w, n, rep)
  }

  /** The instance at position `n` is under inspection; its columns are written one by one. */
  ghost predicate InspectedAt(w0: World, w: World, rec: Pass, rep: Report, n: nat)
    requires rec.Inspected?
  {
    && n < |w0.order| && rec.rows == w0.rows && rec.found == Found(w0) && rec.todo == w0.order[n..]
    && Truthful(w0, n + 1, rep) && Sofar(w0, w, n + 1, rep) && Inspecting(rec, rep, w0.order[n])
  }

  ghost predicate Inspecting(rec: Pass, rep: Report, i: InstanceId)
    requires rec.Inspected?
  {
    && i in rec.rows && !LeftAlone(rec.rows[i].status) && i in rec.found
    && i !in rep.ok.status && (i in rep.ok.runtime ==> rec.adopted)
    && rec.found[i] in rep.seen && rep.seen[rec.found[i]] == Reconcile.Inspection(rec.running, 0)
  }

  /** A pass that began in world `w0` stands at `rec` in world `w`, having dealt with `n` instances. */
  ghost predicate Stands(w0: World, w: World, rec: Pass, rep: Report, n: nat) {
    && w == w0.(rows := w.rows)
    && match rec
       case NoPass => w.rows == w0.rows
       case Listed(rows) => rows == w0.rows == w.rows
       case Working(_, _, _) => WorkingAt(w0, w, rec, rep, n)
       case Inspected(_, _, _, _, _) => InspectedAt(w0, w, rec, rep, n)
  }

  /** The two reports say the same about the calls made for `j`. */
  ghost predicate SameFor(w: World, rep: Report, rep': Report, j: InstanceId) {
    && (j in rep'.ok.runtime <==> j in rep.ok.runtime) && (j in rep'.ok.status <==> j in rep.ok.status)
    && (j in w.containers ==>
          var c := w.containers[j].id;
          (c in rep'.seen <==> c in rep.seen) && (c in rep.seen && c in rep'.seen ==> rep'.seen[c] == rep.seen[c]))
  }

  /** They differ in the calls made for `i` at most. */
  ghost predicate SameBut(w: World, rep: Report, rep': Report, i: InstanceId) {
    forall j :: j in w.rows && j != i ==> SameFor(w, rep, rep', j)
  }

  ghost predicate Regular(w: World) {
    OrderOk(w.order, w.rows.Keys) && Registered(w)
  }

  /** Only the row of `i` was written. */
  ghost predicate OnlyRow(w: World, w': World, i: InstanceId) {
    w'.rows.Keys == w.rows.Keys && forall j :: j in w.rows && j != i ==> w'.rows[j] == w.rows[j]
  }

  lemma SettledSame(w: World, rep: Report, rep': Report, j: InstanceId)
    requires j in w.rows && SameFor(w, rep, rep', j)
    ensures Settled(w, rep', j) == Settled(w, rep, j)
  {
  }

  lemma SofarMoves(w0: World, w: World, w': World, n: nat, m: nat, rep: Report, rep': Report)
    requires m < |w0.order| && (n == m || n == m + 1) && Regular(w0) && Sofar(w0, w, n, rep)
    requires w0.order[m] in w0.rows && SameBut(w0, rep, rep', w0.order[m]) && OnlyRow(w, w', w0.order[m])
    requires Lift(w'.rows[w0.order[m]]) == Settled(w0, rep', w0.order[m])
    ensures Sofar(w0, w', m + 1, rep')
  {
    var i := w0.order[m];
    forall j | j in w0.rows ensures RowSofar(w0, w', j in w0.order[..m + 1], rep', j) {
      InPrefix(w0.order, m, j);
      if j != i {
        assert RowSofar(w0, w, j in w0.order[..n], rep, j);
        SettledSame(w0, rep, rep', j);
      }
    }
  }

  lemma InPrefix(order: seq<InstanceId>, m: nat, j: InstanceId)
    requires m < |order|
    ensures j in order[..m + 1] <==> j in order[..m] || j == order[m]
  {
    assert order[..m + 1] == order[..m] + [order[m]];
  }

  lemma Onward(order: seq<InstanceId>, n: nat)
    requires n < |order|
    ensures order[n..][1..] == order[n + 1..]
  {
  }

  /** The next instance has not been touched. */
  lemma Untouched(w: World, n: nat, rep: Report)
    requires n < |w.order| && Regular(w) && Truthful(w, n, rep)
    ensures var i := w.order[n];
            && i in w.rows && i !in w.order[..n] && i !in rep.ok.runtime && i !in rep.ok.status
            && (i in w.containers ==> w.containers[i].id !in rep.seen)
            && w.order[n..][1..] == w.order[n + 1..] && Truthful(w, n + 1, rep)
  {
    var i := w.order[n];
    assert i in w.order;
    assert w.order[..n + 1] == w.order[..n] + [i];
  }

  /** What the step of a pass reports about the instance at hand. */
  function Reported(w: World, rec: Pass, ch: Choice, rep: Report): Report {
    if rec.Working? && rec.todo != [] && rec.todo[0] in rec.rows && !LeftAlone(rec.rows[rec.todo[0]].status) then
      var i := rec.todo[0];
      if i !in rec.found then
        if ch.write then rep.(ok := rep.ok.(status := rep.ok.status + {i})) else rep
      else if ch.ok && Exists(w, rec.found[i]) then
        var running := w.containers[w.born[rec.found[i]]].running;
        rep.(seen := rep.seen[rec.found[i] := Reconcile.Inspection(running, 0)])
      else rep
    else if rec.Inspected? && rec.todo != [] && ch.write then
      var i := rec.todo[0];
      if rec.adopted then rep.(ok := rep.ok.(status := rep.ok.status + {i}))
      else rep.(ok := rep.ok.(runtime := rep.ok.runtime + {i}))
    else rep
  }

  /** A step writes one row at most. */
  lemma StepOnlyRow(w: World, rec: Pass, ch: Choice)
    requires (rec.Working? || rec.Inspected?) && rec.todo != []
    ensures OnlyRow(w, ReconcilerStep(w, rec, ch).0, rec.todo[0])
    ensures var w' := ReconcilerStep(w, rec, ch).0; w' == w.(rows := w'.rows)
  {
  }

  lemma ReportedSameBut(w: World, rec: Pass, ch: Choice, rep: Report)
    requires Registered(w) && (rec.Working? || rec.Inspected?) && rec.todo != [] && rec.found == Found(w)
    ensures SameBut(w, rep, Reported(w, rec, ch, rep), rec.todo[0])
  {
    var i := rec.todo[0];
    forall j | j in w.rows && j != i ensures SameFor(w, rep, Reported(w, rec, ch, rep), j) {
      if j in w.containers && i in w.containers {
        assert w.containers[i].id != w.containers[j].id;
      }
    }
  }

  lemma ReportedTruthful(w: World, rec: Pass, ch: Choice, rep: Report, n: nat)
    requires n < |w.order| && Registered(w) && (rec.Working? || rec.Inspected?) && rec.found == Found(w)
    requires rec.todo != [] && rec.todo[0] == w.order[n] && Truthful(w, n + 1, rep)
    ensures Truthful(w, n + 1, Reported(w, rec, ch, rep))
  {
    assert w.order[n] in w.order[..n + 1];
  }

  /** The report does not depend on the rows. */
  lemma ReportedSame(w0: World, w: World, rec: Pass, ch: Choice, rep: Report)
    requires w == w0.(rows := w.rows)
    ensures Reported(w, rec, ch, rep) == Reported(w0, rec, ch, rep)
  {
  }

  lemma WorkRow(w0: World, w: World, rec: Pass, ch: Choice, rep: Report)
    requires rec.Working? && rec.todo != [] && rec.rows == w0.rows && rec.found == Found(w0)
    requires rec.todo[0] in w0.rows && rec.todo[0] in w.rows && w == w0.(rows := w.rows) && Registered(w0)
    requires var i := rec.todo[0];
             && Lift(w.rows[i]) == Lift(w0.rows[i]) && i !in rep.ok.runtime && i !in rep.ok.status
             && (i in w0.containers ==> w0.containers[i].id !in rep.seen)
    ensures var i := rec.todo[0]; var (w', rec') := ReconcilerStep(w, rec, ch); var rep' := Reported(w, rec, ch, rep);
            && i in w'.rows && Lift(w'.rows[i]) == Settled(w0, rep', i)
            && (rec' == Working(rec.rows, rec.found, rec.todo[1..])
                || (&& rec'.Inspected? && rec' == Inspected(rec.rows, rec.found, rec.todo, rec'.running, false)
                    && !LeftAlone(rec.rows[i].status) && i in rec.found && rec.found[i] in rep'.seen
                    && rep'.seen[rec.found[i]].running == rec'.running
                    && i !in rep'.ok.runtime && i !in rep'.ok.status))
  {
  }

  lemma WorkSofar(w0: World, w: World, rec: Pass, ch: Choice, rep: Report, n: nat)
    requires Regular(w0) && rec.Working? && w == w0.(rows := w.rows) && WorkingAt(w0, w, rec, rep, n) && n < |w0.order|
    ensures var rep' := Reported(w, rec, ch, rep); var (w', rec') := ReconcilerStep(w, rec, ch);
            && w' == w0.(rows := w'.rows) && Sofar(w0, w', n + 1, rep') && Truthful(w0, n + 1, rep')
            && (rec' == Working(rec.rows, rec.found, rec.todo[1..])
                || (rec'.Inspected? && rec' == Inspected(rec.rows, rec.found, rec.todo, rec'.running, false)
                    && Inspecting(rec', rep', w0.order[n])))
  {
    var i, w' := w0.order[n], ReconcilerStep(w, rec, ch).0;
    Untouched(w0, n, rep);
    assert RowSofar(w0, w, false, rep, i);
    StepOnlyRow(w, rec, ch);
    ReportedSame(w0, w, rec, ch, rep);
    ReportedSameBut(w0, rec, ch, rep);
    ReportedTruthful(w0, rec, ch, rep, n);
    WorkRow(w0, w, rec, ch, rep);
    SofarMoves(w0, w, w', n, n, rep, Reported(w, rec, ch, rep));
  }

  lemma WorkStands(w0: World, w: World, rec: Pass, ch: Choice, rep: Report, n: nat)
    requires Regular(w0) && rec.Working? && rec.todo != [] && Stands(w0, w, rec, rep, n)
    ensures var (w', rec') := ReconcilerStep(w, rec, ch);
            !rec'.NoPass? && Stands(w0, w', rec', Reported(w, rec, ch, rep), if rec'.Working? then n + 1 else n)
  {
    WorkSofar(w0, w, rec, ch, rep, n);
    Onward(w0.order, n);
    var (w', rec') := ReconcilerStep(w, rec, ch);
    if rec'.Working? {
      assert WorkingAt(w0, w', rec', Reported(w, rec, ch, rep), n + 1);
    } else {
      assert InspectedAt(w0, w', rec', Reported(w, rec, ch, rep), n);
    }
  }

  lemma WriteRow(w0: World, w: World, rec: Pass, ch: Choice, rep: Report)
    requires rec.Inspected? && rec.todo != [] && rec.rows == w0.rows && rec.found == Found(w0)
    requires rec.todo[0] in w0.rows && rec.todo[0] in w.rows && rec.todo[0] in rec.found
    requires var i := rec.todo[0];
             && Lift(w.rows[i]) == Settled(w0, rep, i) && !LeftAlone(w0.rows[i].status)
             && i !in rep.ok.status && (i in rep.ok.runtime ==> rec.adopted)
             && rec.found[i] in rep.seen && rep.seen[rec.found[i]] == Reconcile.Inspection(rec.running, 0)
    ensures var i := rec.todo[0]; var (w', rec') := ReconcilerStep(w, rec, ch); var rep' := Reported(w, rec, ch, rep);
            && i in w'.rows && Lift(w'.rows[i]) == Settled(w0, rep', i) && rep'.seen == rep.seen
            && rec' == if rec.adopted then Working(rec.rows, rec.found, rec.todo[1..]) else rec.(adopted := true)
  {
  }

  lemma WriteSofar(w0: World, w: World, rec: Pass, ch: Choice, rep: Report, n: nat)
    requires Regular(w0) && rec.Inspected? && w == w0.(rows := w.rows) && InspectedAt(w0, w, rec, rep, n)
    ensures var rep' := Reported(w, rec, ch, rep); var (w', rec') := ReconcilerStep(w, rec, ch);
            && w' == w0.(rows := w'.rows) && Sofar(w0, w', n + 1, rep') && Truthful(w0, n + 1, rep')
            && rec' == (if rec.adopted then Working(rec.rows, rec.found, rec.todo[1..]) else rec.(adopted := true))
            && (!rec.adopted ==> Inspecting(rec', rep', w0.order[n]))
  {
    var i, w' := w0.order[n], ReconcilerStep(w, rec, ch).0;
    InPrefix(w0.order, n, i);
    assert RowSofar(w0, w, true, rep, i);
    StepOnlyRow(w, rec, ch);
    ReportedSame(w0, w, rec, ch, rep);
    ReportedSameBut(w0, rec, ch, rep);
    ReportedTruthful(w0, rec, ch, rep, n);
    WriteRow(w0, w, rec, ch, rep);
    SofarMoves(w0, w, w', n + 1, n, rep, Reported(w, rec, ch, rep));
  }

  lemma WriteStands(w0: World, w: World, rec: Pass, ch: Choice, rep: Report, n: nat)
    requires Regular(w0) && rec.Inspected? && Stands(w0, w, rec, rep, n)
    ensures var (w', rec') := ReconcilerStep(w, rec, ch);
            !rec'.NoPass? && Stands(w0, w', rec', Reported(w, rec, ch, rep), if rec'.Working? then n + 1 else n)
  {
    WriteSofar(w0, w, rec, ch, rep, n);
    Onward(w0.order, n);
  }

  lemma ReadStands(w0: World, w: World, rec: Pass, ch: Choice)
    requires Regular(w0) && (rec.NoPass? || rec.Listed?) && Stands(w0, w, rec, NOTHING, 0)
    ensures var (w', rec') := ReconcilerStep(w, rec, ch); Stands(w0, w', rec', NOTHING, 0)
  {
    assert w0.order[0..] == w0.order;
  }

  /** A pass under way has dealt with some instances as the reconciler's model says. */
  lemma {:induction false} PassStands(s: State, chs: seq<Choice>) returns (rep: Report, n: nat)
    requires s.rec.NoPass? && Regular(s.w) && Unfinished(s, chs)
    ensures var t := Passes(s, chs);
            Stands(s.w, t.w, t.rec, rep, n) && (t.rec.NoPass? || t.rec.Listed? ==> rep == NOTHING && n == 0)
  {
    rep, n := NOTHING, 0;
    if chs != [] {
      var front, ch := chs[..|chs| - 1], chs[|chs| - 1];
      rep, n := PassStands(s, front);
      var t := Passes(s, front);
      if t.rec.Working? {
        WorkStands(s.w, t.w, t.rec, ch, rep, n);
      } else if t.rec.Inspected? {
        WriteStands(s.w, t.w, t.rec, ch, rep, n);
      } else {
        ReadStands(s.w, t.w, t.rec, ch);
      }
      n := if (t.rec.Working? || t.rec.Inspected?) && Passes(s, chs).rec.Working? then n + 1 else n;
      rep := Reported(t.w, t.rec, ch, rep);
    }
  }

  lemma SofarAll(w0: World, w: World, rep: Report)
    requires OrderOk(w0.order, w0.rows.Keys) && Sofar(w0, w, |w0.order|, rep)
    ensures LiftAll(w.rows) == Reconcile.Pass(LiftAll(w0.rows), Found(w0), rep.seen, rep.ok)
  {
    assert w0.order[..|w0.order|] == w0.order;
  }

  lemma SofarNone(w: World)
    ensures LiftAll(w.rows) == Reconcile.Pass(LiftAll(w.rows), Found(w), NOTHING.seen, NOTHING.ok)
  {
  }

  /** A whole uninterrupted pass, whichever of its calls fail, does to the rows what the reconciler's model
      says, given what its calls reported, and does nothing else; the report tells the state of the
      containers as they are. */
  lemma WholePass(s: State, chs: seq<Choice>) returns (rep: Report)
    requires s.rec.NoPass? && Regular(s.w) && OnePass(s, chs)
    ensures var t := Passes(s, chs);
            && LiftAll(t.w.rows) == Reconcile.Pass(LiftAll(s.w.rows), Found(s.w), rep.seen, rep.ok)
            && t.w == s.w.(rows := t.w.rows) && t.pc == s.pc && Truthful(s.w, |s.w.order|, rep)
  {
    var front, ch := chs[..|chs| - 1], chs[|chs| - 1];
    var n;
    rep, n := PassStands(s, front);
    PassesKeepPc(s, chs);
    var t := Passes(s, front);
    if t.rec.Working? {
      if t.rec.todo != [] {
        WorkStands(s.w, t.w, t.rec, ch, rep, n);
      }
      SofarAll(s.w, t.w, rep);
    } else if t.rec.Inspected? {
      WriteStands(s.w, t.w, t.rec, ch, rep, n);
    } else {
      SofarNone(s.w);
    }
  }

  lemma {:induction false} PassesKeepPc(s: State, chs: seq<Choice>)
    ensures Passes(s, chs).pc == s.pc
  {
    if chs != [] {
      PassesKeepPc(s, chs[..|chs| - 1]);
    }
  }

  lemma CloneMembers(w: World, run: Rejoin, todo: seq<InstanceId>, at: Stage, ch: Choice)
    requires todo != []
    ensures RecloneStep(w, run, todo, at, ch).0.rows.Keys == w.rows.Keys
  {
  }

  lemma StepMembers(s: State, e: Event)
    ensures Step(s, e).w.rows.Keys == s.w.rows.Keys
  {
    if e.Controller? {
      ControllerMembers(s.w, s.pc, e.ch);
    }
  }

  lemma ControllerMembers(w: World, pc: Pc, ch: Choice)
    ensures ControllerStep(w, pc, ch).0.rows.Keys == w.rows.Keys
  {
    if pc.Recloning? && pc.todo != [] {
      CloneMembers(w, pc.run, pc.todo, pc.at, ch);
    }
  }

  /** In every run a pass starts in a world such as `WholePass` asks for. */
  lemma {:induction false} RunRegular(s: State, events: seq<Event>)
    requires Initial(s)
    ensures Regular(Run(s, events).w)
  {
    RunIds(s, events);
    if events != [] {
      var front, e := events[..|events| - 1], events[|events| - 1];
      RunRegular(s, front);
      StepMembers(Run(s, front), e);
      OrderFixed(Run(s, front), e);
    }
  }
}
