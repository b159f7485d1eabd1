/** What a failover leads to when nobody interferes (internal/failover/failover.go:212-343 and
    internal/provision/replica.go:18-114): call by call as its calls work or fail, and, when all of them
    work, from a cluster of any size with a dead primary to one that is whole again. */
module FailoverOutcome {
  import opened Optional
  import opened Fleet
  import opened Quorum
  import opened FailoverProtocol
  import opened FailoverMark

  /** The controller alone takes these steps. */
  function After(s: State, chs: seq<Choice>): State {
    if chs == [] then s else Step(After(s, chs[..|chs| - 1]), Controller(chs[|chs| - 1]))
  }

  lemma {:induction false} AfterSplit(s: State, a: seq<Choice>, b: seq<Choice>)
    ensures After(s, a + b) == After(After(s, a), b)
  {
    if b == [] {
      assert a + b == a;
    } else {
      AfterSplit(s, a, b[..|b| - 1]);
      assert (a + b)[..|a + b| - 1] == a + b[..|b| - 1];
    }
  }

  lemma AfterOne(s: State, chs: seq<Choice>)
    requires |chs| == 1
    ensures After(s, chs) == Step(s, Controller(chs[0]))
  {
    assert chs[..0] == [];
  }

  /** The steps in the order in which they are taken. */
  lemma AfterFirst(s: State, chs: seq<Choice>)
    requires chs != []
    ensures After(s, chs) == After(Step(s, Controller(chs[0])), chs[1..])
  {
    AfterSplit(s, chs[..1], chs[1..]);
    AfterOne(s, chs[..1]);
    assert chs == chs[..1] + chs[1..];
  }

  lemma AfterTwo(s: State, chs: seq<Choice>)
    requires |chs| == 2
    ensures After(s, chs) == Step(Step(s, Controller(chs[0])), Controller(chs[1]))
  {
    AfterFirst(s, chs);
    AfterOne(Step(s, Controller(chs[0])), chs[1..]);
  }

  lemma AfterThree(s: State, chs: seq<Choice>)
    requires |chs| == 3
    ensures After(s, chs) == Step(Step(Step(s, Controller(chs[0])), Controller(chs[1])), Controller(chs[2]))
  {
    AfterFirst(s, chs);
    AfterTwo(Step(s, Controller(chs[0])), chs[1..]);
  }

  lemma AfterFour(s: State, chs: seq<Choice>)
    requires |chs| == 4
    ensures After(s, chs)
         == Step(Step(Step(Step(s, Controller(chs[0])), Controller(chs[1])), Controller(chs[2])), Controller(chs[3]))
  {
    AfterFirst(s, chs);
    AfterThree(Step(s, Controller(chs[0])), chs[1..]);
  }

  // ---------- fencing, promotion and the change of roles ----------

  /** `p` is the one member with role primary, its container exists under the id the failover has read, and the
      chosen replica's container runs. */
  ghost predicate Ready(w: World, job: Job, p: InstanceId, newP: InstanceId) {
    && Registered(w) && p != newP && p in w.rows && newP in w.rows
    && job.oldP == Some(p) && p in job.rows && newP in job.rows
    && p in w.containers && job.rows[p].cid == Some(w.containers[p].id)
    && newP in w.containers && w.containers[newP].running && job.rows[newP].cid == Some(w.containers[newP].id)
    && (forall i :: i in w.rows && w.rows[i].role == Primary ==> i == p)
  }

  /** The fence: the recorded container is removed, or the failover ends in error. */
  lemma FenceLeads(s: State, p: InstanceId, ch: Choice)
    requires s.pc.Fencing? && Ready(s.w, s.pc.job, p, s.pc.newP)
    ensures var s' := Step(s, Controller(ch));
            if ch.ok then
              s' == s.(w := s.w.(containers := s.w.containers - {p}), pc := ClearFenced(s.pc.job, s.pc.newP))
            else
              s' == s.(pc := Idle,
                       w := s.w.(containers := if ch.done then s.w.containers - {p} else s.w.containers,
                                 status := if ch.write then ClusterError else s.w.status))
  {
  }

  /** With nothing recorded to fence the failover goes straight on to the promotion. */
  lemma NothingToFence(s: State, ch: Choice)
    requires s.pc.Fencing?
    requires s.pc.job.oldP.None? || s.pc.job.oldP.value !in s.pc.job.rows
             || s.pc.job.rows[s.pc.job.oldP.value].cid.None?
    ensures Step(s, Controller(ch)) == s.(pc := Promote(s.pc.job, s.pc.newP))
  {
  }

  /** The row of the fenced primary forgets its container, if that can be written. */
  lemma ClearLeads(s: State, p: InstanceId, ch: Choice)
    requires s.pc.ClearFenced? && s.pc.job.oldP == Some(p) && p in s.w.rows
    ensures var row := s.w.rows[p].(cid := if ch.write then None else s.w.rows[p].cid);
            Step(s, Controller(ch))
            == s.(w := s.w.(rows := s.w.rows[p := row]), pc := Promote(s.pc.job, s.pc.newP))
  {
    assert s.w.rows[p := s.w.rows[p]] == s.w.rows;
  }

  /** The volumes after a promotion with this effect on a running standby. */
  function Promoted(volumes: map<InstanceId, Volume>, i: InstanceId, effect: Effect): map<InstanceId, Volume> {
    if i !in volumes || volumes[i] != Standby || effect == Nothing then volumes
    else volumes[i := if effect == Signalled then Promoting else Writable]
  }

  /** The promotion works on the chosen replica's volume alone, whatever it reports, and the failover goes on
      exactly if the container runs and the call reports success. */
  lemma PromoteLeads(s: State, ch: Choice)
    requires s.pc.Promote? && Registered(s.w) && s.pc.newP in s.pc.job.rows
    requires s.pc.newP in s.w.containers && s.pc.job.rows[s.pc.newP].cid == Some(s.w.containers[s.pc.newP].id)
    ensures var s' := Step(s, Controller(ch));
            var runs := s.w.containers[s.pc.newP].running;
            var took := runs && s.pc.newP in s.w.volumes && s.w.volumes[s.pc.newP] == Standby && ch.effect != Nothing;
            && s'.w == (if runs then s.w.(volumes := Promoted(s.w.volumes, s.pc.newP, ch.effect)) else s.w)
            && s'.rec == s.rec
            && s'.pc == if runs && ch.ok then Demote(s.pc.job, s.pc.newP, took)
                        else PromoteFailed(s.pc.job, s.pc.newP)
  {
  }

  /** A failed promotion ends the failover in error, if that can be written. */
  lemma FailureLeads(s: State, ch: Choice)
    requires s.pc.PromoteFailed?
    ensures Step(s, Controller(ch))
         == s.(pc := Idle, w := s.w.(status := if ch.write then ClusterError else s.w.status))
  {
  }

  /** The change of roles: the old primary becomes a replica in error, the new one a running primary. */
  lemma RolesChange(s: State, p: InstanceId, demote: Choice, crown: Choice)
    requires s.pc.Demote? && s.pc.job.oldP == Some(p) && p != s.pc.newP && p in s.w.rows && s.pc.newP in s.w.rows
    requires forall i :: i in s.w.rows && s.w.rows[i].role == Primary ==> i == p
    requires demote.write && crown.write
    ensures var newP := s.pc.newP;
            var s' := Step(Step(s, Controller(demote)), Controller(crown));
            && s'.w == s.w.(rows := s.w.rows[
                 p := Row(Replica, s.w.rows[p].cid, if demote.ok then Errored else s.w.rows[p].status)][
                 newP := Row(Primary, s.w.rows[newP].cid, if crown.ok then Running else s.w.rows[newP].status)])
            && s'.rec == s.rec
            && s'.pc == SavePrimary(Rejoin(s.pc.job, newP, s.pc.took, s.w.primary, false, false, [], {}, []),
                                    Survivors(s.pc.job.replicas, newP))
  {
    var newP := s.pc.newP;
    DemotionRows(s.w, p, demote.ok);
    var w1 := Step(s, Controller(demote)).w;
    assert w1.rows == s.w.rows[p := w1.rows[p]];
    CrownRows(w1, newP, crown.ok);
  }

  lemma DemotionRows(w: World, p: InstanceId, ok: bool)
    requires p in w.rows
    ensures SetRole(SetStatus(w, p, Errored, ok), p, Replica, true)
         == w.(rows := w.rows[p := Row(Replica, w.rows[p].cid, if ok then Errored else w.rows[p].status)])
  {
    var status := if ok then Errored else w.rows[p].status;
    WriteTwice(w.rows, p, w.rows[p].(status := Errored), Row(Replica, w.rows[p].cid, status));
  }

  lemma WriteTwice(rows: map<InstanceId, Row>, i: InstanceId, a: Row, b: Row)
    ensures rows[i := a][i := b] == rows[i := b]
  {
  }

  lemma CrownRows(w: World, newP: InstanceId, ok: bool)
    requires newP in w.rows && forall i :: i in w.rows && i != newP ==> w.rows[i].role != Primary
    ensures SetStatus(SetRole(w, newP, Primary, true), newP, Running, ok)
         == w.(rows := w.rows[newP := Row(Primary, w.rows[newP].cid, if ok then Running else w.rows[newP].status)])
  {
    var row := w.rows[newP].(role := Primary);
    WriteTwice(w.rows, newP, row, row.(status := Running));
  }

  /** The new primary's id is saved, or the cluster marked degraded, and the re-clones begin. */
  lemma SaveLeads(s: State, ch: Choice)
    requires s.pc.SavePrimary?
    ensures Step(s, Controller(ch))
         == s.(w := if ch.write then s.w.(primary := Some(s.pc.run.newP))
                    else if ch.ok then s.w.(status := ClusterDegraded) else s.w,
               pc := Recloning(if ch.write then s.pc.run.(primarySaved := true) else s.pc.run, s.pc.todo,
                               MarkProvisioning))
  {
  }

  // ---------- re-cloning one replica ----------

  /** The replica under way has these resources, and nothing else differs from `w` but its row, whose role is as
      it was. */
  ghost predicate Has(w: World, w': World, r: InstanceId, born: seq<InstanceId>, volume: Volume,
                      container: Option<Container>)
  {
    && r in w.rows && r in w.volumes && r in w'.rows
    && w' == w.(rows := w.rows[r := w'.rows[r]], volumes := w.volumes[r := volume], born := born,
                containers := if container.Some? then w.containers[r := container.value] else w.containers - {r})
    && w'.rows[r].role == w.rows[r].role
  }

  /** The call that decides whether a stage of the re-clone works. */
  predicate Decides(at: Stage, ch: Choice) {
    match at
    case DropVolume => ch.ok
    case PreparePrimary => ch.ok
    case CreateVolume => ch.ok
    case BaseBackup => ch.ok
    case CreateContainer => ch.ok
    case StartContainer(_) => ch.ok
    case AwaitStreaming(_) => ch.ok && ch.write
    case MarkRunning => ch.write
    case _ => true
  }

  /** The replica that is re-cloned now, in state `s`. */
  ghost predicate AtStage(s: State, run: Rejoin, todo: seq<InstanceId>, at: Stage) {
    todo != [] && s.pc == Recloning(run, todo, at)
  }

  /** The removal leaves the replica without a container, and no other: the one it has is the one the failover
      read, and the call works, or it has none and the one that was read is gone. */
  predicate Removable(w: World, job: Job, r: InstanceId, ok: bool) {
    if r in w.containers then ok && r in job.rows && job.rows[r].cid == Some(w.containers[r].id)
    else r in job.rows && job.rows[r].cid.Some? ==> !Exists(w, job.rows[r].cid.value)
  }

  /** The first half: mark the row, remove container and volume, forget the container, prepare the primary,
      create an empty volume. */
  lemma Strips(s: State, run: Rejoin, todo: seq<InstanceId>, chs: seq<Choice>)
    requires AtStage(s, run, todo, MarkProvisioning) && |chs| == 4 && Registered(s.w)
    requires todo[0] in s.w.rows && todo[0] in s.w.volumes && Removable(s.w, run.job, todo[0], chs[1].ok)
    requires Decides(DropVolume, chs[2])
    ensures var s' := After(s, chs);
            s' == s.(w := s'.w, pc := Recloning(run, todo, PreparePrimary))
            && Has(s.w, s'.w, todo[0], s.w.born, Absent, None)
  {
    Part2(chs);
    AfterSplit(s, chs[..2], chs[2..]);
    Removes(s, run, todo, chs[..2]);
    Drops(s.w, After(s, chs[..2]), run, todo, chs[2..]);
  }

  lemma Part2(chs: seq<Choice>)
    requires |chs| == 4
    ensures chs == chs[..2] + chs[2..]
  {
  }

  /** Mark the row and remove the container. */
  lemma Removes(s: State, run: Rejoin, todo: seq<InstanceId>, chs: seq<Choice>)
    requires AtStage(s, run, todo, MarkProvisioning) && |chs| == 2 && Registered(s.w)
    requires todo[0] in s.w.rows && Removable(s.w, run.job, todo[0], chs[1].ok)
    ensures var r := todo[0]; var s' := After(s, chs);
            && r in s'.w.rows && s'.w.rows[r].role == s.w.rows[r].role
            && s' == s.(w := s.w.(rows := s.w.rows[r := s'.w.rows[r]], containers := s.w.containers - {r}),
                        pc := Recloning(run, todo, DropVolume))
  {
    AfterTwo(s, chs);
    assert s.w.rows[todo[0] := s.w.rows[todo[0]]] == s.w.rows;
  }

  /** Remove the volume and forget the container. */
  lemma Drops(w: World, s: State, run: Rejoin, todo: seq<InstanceId>, chs: seq<Choice>)
    requires AtStage(s, run, todo, DropVolume) && |chs| == 2 && Decides(DropVolume, chs[0])
    requires todo[0] in w.rows && todo[0] in w.volumes && todo[0] in s.w.rows
    requires s.w == w.(rows := w.rows[todo[0] := s.w.rows[todo[0]]], containers := w.containers - {todo[0]})
    requires s.w.rows[todo[0]].role == w.rows[todo[0]].role
    ensures var s' := After(s, chs);
            s' == s.(w := s'.w, pc := Recloning(run, todo, PreparePrimary))
            && Has(w, s'.w, todo[0], w.born, Absent, None)
  {
    AfterTwo(s, chs);
    var r := todo[0];
    WriteTwice(w.rows, r, s.w.rows[r], s.w.rows[r].(cid := None));
  }

  /** The standby's data: prepare the primary, create an empty volume, fill it. */
  lemma Fills(s: State, run: Rejoin, todo: seq<InstanceId>, chs: seq<Choice>)
    requires AtStage(s, run, todo, PreparePrimary) && |chs| == 3
    requires Has(s.w, s.w, todo[0], s.w.born, Absent, None)
    requires Decides(PreparePrimary, chs[0]) && Decides(CreateVolume, chs[1]) && Decides(BaseBackup, chs[2])
    ensures var s' := After(s, chs);
            s' == s.(w := s'.w, pc := Recloning(run, todo, CreateContainer))
            && Has(s.w, s'.w, todo[0], s.w.born, Standby, None)
  {
    AfterThree(s, chs);
  }

  /** Its container: create it, note its id, start it. */
  lemma Creates(s: State, run: Rejoin, todo: seq<InstanceId>, chs: seq<Choice>)
    requires AtStage(s, run, todo, CreateContainer) && |chs| == 3
    requires Has(s.w, s.w, todo[0], s.w.born, Standby, None)
    requires Decides(CreateContainer, chs[0]) && Decides(StartContainer(|s.w.born|), chs[2])
    ensures var s' := After(s, chs);
            s' == s.(w := s'.w, pc := Recloning(run, todo, AwaitStreaming(|s.w.born|)))
            && Has(s.w, s'.w, todo[0], s.w.born + [todo[0]], Standby, Some(Container(|s.w.born|, true)))
  {
    AfterThree(s, chs);
  }

  /** The last two calls: it streams, and its row says so. */
  lemma Joins(s: State, run: Rejoin, todo: seq<InstanceId>, c: ContainerId, chs: seq<Choice>)
    requires AtStage(s, run, todo, AwaitStreaming(c)) && |chs| == 2 && todo[0] in s.w.rows
    requires Decides(AwaitStreaming(c), chs[0]) && Decides(MarkRunning, chs[1])
    ensures var r := todo[0];
            After(s, chs) == s.(w := s.w.(rows := s.w.rows[r := Row(s.w.rows[r].role, Some(c), Running)]),
                                pc := Recloning(run, todo, Reread))
  {
    AfterTwo(s, chs);
  }

  lemma HasThen(w: World, w1: World, w2: World, r: InstanceId, b1: seq<InstanceId>, b2: seq<InstanceId>, v1: Volume,
                v2: Volume, c1: Option<Container>, c2: Option<Container>)
    requires Has(w, w1, r, b1, v1, c1) && Has(w1, w2, r, b2, v2, c2)
    ensures Has(w, w2, r, b2, v2, c2)
  {
  }

  lemma HasItself(w: World, w1: World, r: InstanceId, b: seq<InstanceId>, v: Volume, c: Option<Container>)
    requires Has(w, w1, r, b, v, c)
    ensures Has(w1, w1, r, w1.born, v, c)
  {
  }

  /** The replica is a running standby in a new container. */
  function Rejoined(w: World, r: InstanceId): World
    requires r in w.rows
  {
    w.(rows := w.rows[r := Row(w.rows[r].role, Some(|w.born|), Running)], volumes := w.volumes[r := Standby],
       born := w.born + [r], containers := w.containers[r := Container(|w.born|, true)])
  }

  /** Every call that decides works, in the order of the stages up to the re-read. */
  predicate AllDecide(chs: seq<Choice>, c: ContainerId)
    requires |chs| == 12
  {
    && Decides(DropVolume, chs[2]) && Decides(PreparePrimary, chs[4]) && Decides(CreateVolume, chs[5])
    && Decides(BaseBackup, chs[6]) && Decides(CreateContainer, chs[7]) && Decides(StartContainer(c), chs[9])
    && Decides(AwaitStreaming(c), chs[10]) && Decides(MarkRunning, chs[11])
  }

  /** A re-clone whose deciding calls work leaves the replica a running standby in a new container that its row
      names, whatever it was before, and touches nobody else; the writes in between may fail. */
  lemma Clones(s: State, run: Rejoin, todo: seq<InstanceId>, chs: seq<Choice>)
    requires AtStage(s, run, todo, MarkProvisioning) && |chs| == 12 && Registered(s.w)
    requires todo[0] in s.w.rows && todo[0] in s.w.volumes && Removable(s.w, run.job, todo[0], chs[1].ok)
    requires AllDecide(chs, |s.w.born|)
    ensures After(s, chs) == s.(w := Rejoined(s.w, todo[0]), pc := Recloning(run, todo, Reread))
  {
    var r := todo[0];
    var s1, s2, s3 := After(s, chs[..4]), After(s, chs[..7]), After(s, chs[..10]);
    TwelveParts(chs);
    AfterSplit(s, chs[..4], chs[4..7]);
    AfterSplit(s, chs[..7], chs[7..10]);
    AfterSplit(s, chs[..10], chs[10..]);
    Strips(s, run, todo, chs[..4]);
    HasItself(s.w, s1.w, r, s.w.born, Absent, None);
    Fills(s1, run, todo, chs[4..7]);
    HasItself(s1.w, s2.w, r, s1.w.born, Standby, None);
    Creates(s2, run, todo, chs[7..10]);
    HasThen(s.w, s1.w, s2.w, r, s.w.born, s.w.born, Absent, Standby, None, None);
    HasThen(s.w, s2.w, s3.w, r, s.w.born, s.w.born + [r], Standby, Standby, None, Some(Container(|s.w.born|, true)));
    Joins(s3, run, todo, |s.w.born|, chs[10..]);
    NamesIt(s.w, s3.w, r);
  }

  lemma TwelveParts(chs: seq<Choice>)
    requires |chs| == 12
    ensures chs[..4] + chs[4..7] == chs[..7] && chs[..7] + chs[7..10] == chs[..10] && chs[..10] + chs[10..] == chs
  {
  }

  lemma NamesIt(w: World, w': World, r: InstanceId)
    requires Has(w, w', r, w.born + [r], Standby, Some(Container(|w.born|, true)))
    ensures w'.(rows := w'.rows[r := Row(w'.rows[r].role, Some(|w.born|), Running)]) == Rejoined(w, r)
  {
  }

  /** The re-read of the row decides whether the router will get the replica. */
  lemma RereadLeads(s: State, run: Rejoin, todo: seq<InstanceId>, ch: Choice)
    requires AtStage(s, run, todo, Reread)
    ensures var run1 := run.(recloned := run.recloned + [todo[0]]);
            Step(s, Controller(ch))
            == s.(pc := Recloning(if ch.ok then run1.(reattached := run.reattached + [todo[0]])
                                  else run1.(unread := run.unread + {todo[0]}), todo[1..], MarkProvisioning))
  {
  }

  /** What the row says meanwhile, as far as it can be written: provisioning from the start, no container once the
      old volume is gone, and the new one as soon as it exists. */
  lemma SaysMeanwhile(s: State, run: Rejoin, todo: seq<InstanceId>, at: Stage, ch: Choice)
    requires AtStage(s, run, todo, at) && todo[0] in s.w.rows
    requires at.MarkProvisioning? || at.ClearRuntime? || at.PreparePrimary? || at.NoteContainer?
    ensures var row := s.w.rows[todo[0]]; var w' := Step(s, Controller(ch)).w;
            && todo[0] in w'.rows && w' == s.w.(rows := s.w.rows[todo[0] := w'.rows[todo[0]]])
            && w'.rows[todo[0]] ==
                 if !ch.write then row
                 else if at.ClearRuntime? then row.(cid := None)
                 else if at.NoteContainer? then row.(cid := Some(at.c))
                 else row.(status := Provisioning)
  {
    assert s.w.rows[todo[0] := s.w.rows[todo[0]]] == s.w.rows;
  }

  // ---------- a re-clone that fails ----------

  /** The failover goes on with the next replica, and will end degraded. */
  function NextDegraded(run: Rejoin, todo: seq<InstanceId>): Pc
    requires todo != []
  {
    Recloning(run.(degraded := true), todo[1..], MarkProvisioning)
  }

  /** A volume that cannot be removed, a primary that cannot be prepared, a volume that cannot be created or a
      last status write that fails: the replica is marked as failed and what it has is kept. */
  lemma GivesUp(s: State, run: Rejoin, todo: seq<InstanceId>, at: Stage, chs: seq<Choice>)
    requires AtStage(s, run, todo, at) && |chs| == 2 && todo[0] in s.w.rows
    requires at.DropVolume? || at.PreparePrimary? || at.CreateVolume? || at.MarkRunning?
    requires !Decides(at, chs[0]) || (at.DropVolume? && todo[0] in s.w.containers)
    ensures var r := todo[0];
            var status := if chs[1].write then Errored
                          else if at.PreparePrimary? && chs[0].write then Provisioning else s.w.rows[r].status;
            After(s, chs) == s.(w := s.w.(rows := s.w.rows[r := s.w.rows[r].(status := status)]),
                                pc := NextDegraded(run, todo))
  {
    AfterTwo(s, chs);
    var r := todo[0];
    assert s.w.rows[r := s.w.rows[r]] == s.w.rows;
    WriteAgain(s.w.rows, r);
  }

  lemma WriteAgain(rows: map<InstanceId, Row>, i: InstanceId)
    requires i in rows
    ensures rows[i := rows[i].(status := Provisioning)][i := rows[i].(status := Errored)]
         == rows[i := rows[i].(status := Errored)]
  {
  }

  /** A base backup or a container that fails: the volume is removed, if that works, and the replica is marked as
      failed. */
  lemma GivesUpFilling(s: State, run: Rejoin, todo: seq<InstanceId>, at: Stage, chs: seq<Choice>)
    requires AtStage(s, run, todo, at) && |chs| == 3 && todo[0] in s.w.rows && todo[0] in s.w.volumes
    requires (at.BaseBackup? && s.w.volumes[todo[0]] == Empty) || at.CreateContainer?
    requires todo[0] !in s.w.containers && !Decides(at, chs[0])
    ensures var r := todo[0];
            var volume := if chs[1].ok then Absent
                          else if at.BaseBackup? && chs[0].done then Torn else s.w.volumes[r];
            var status := if chs[2].write then Errored else s.w.rows[r].status;
            After(s, chs) == s.(w := s.w.(rows := s.w.rows[r := s.w.rows[r].(status := status)],
                                          volumes := s.w.volumes[r := volume]),
                                pc := NextDegraded(run, todo))
  {
    AfterThree(s, chs);
    var r := todo[0];
    assert s.w.rows[r := s.w.rows[r]] == s.w.rows && s.w.volumes[r := s.w.volumes[r]] == s.w.volumes;
    VolumeAgain(s.w.volumes, r, if chs[0].done then Torn else Empty);
  }

  lemma VolumeAgain(volumes: map<InstanceId, Volume>, i: InstanceId, v: Volume)
    ensures volumes[i := v][i := Absent] == volumes[i := Absent]
  {
  }

  /** A container that does not start, or a standby that does not stream: the container is removed, if that works,
      then the volume, and the replica is marked as failed. */
  lemma GivesUpStarting(s: State, run: Rejoin, todo: seq<InstanceId>, c: ContainerId, at: Stage, chs: seq<Choice>)
    requires AtStage(s, run, todo, at) && |chs| == 4 && todo[0] in s.w.rows && todo[0] in s.w.volumes
    requires at == StartContainer(c) || at == AwaitStreaming(c)
    requires todo[0] in s.w.containers && s.w.containers[todo[0]].id == c && Registered(s.w) && !Decides(at, chs[0])
    ensures var r := todo[0];
            var row := s.w.rows[r].(cid := if at.AwaitStreaming? && chs[0].write then Some(c) else s.w.rows[r].cid,
                                    status := if chs[3].write then Errored else s.w.rows[r].status);
            After(s, chs) == s.(w := s.w.(rows := s.w.rows[r := row],
                                          containers := if chs[1].ok then s.w.containers - {r} else s.w.containers,
                                          volumes := if chs[1].ok && chs[2].ok then s.w.volumes[r := Absent]
                                                     else s.w.volumes),
                                pc := NextDegraded(run, todo))
  {
    AfterFirst(s, chs);
    StartFails(s, run, todo, c, at, chs[0]);
    var s1 := Step(s, Controller(chs[0]));
    CleansUp(s1, run, todo, c, chs[1..]);
    WriteTwice(s.w.rows, todo[0], s1.w.rows[todo[0]], s1.w.rows[todo[0]].(status := Errored));
  }

  lemma StartFails(s: State, run: Rejoin, todo: seq<InstanceId>, c: ContainerId, at: Stage, ch: Choice)
    requires AtStage(s, run, todo, at) && todo[0] in s.w.rows && !Decides(at, ch)
    requires at == StartContainer(c) || at == AwaitStreaming(c)
    ensures var r := todo[0];
            var row := s.w.rows[r].(cid := if at.AwaitStreaming? && ch.write then Some(c) else s.w.rows[r].cid);
            Step(s, Controller(ch))
            == s.(w := s.w.(rows := s.w.rows[r := row]), pc := Recloning(run, todo, CleanContainer(c)))
  {
    assert s.w.rows[todo[0] := s.w.rows[todo[0]]] == s.w.rows;
  }

  /** The cleanup of a container that was created: container, volume, status. */
  lemma CleansUp(s: State, run: Rejoin, todo: seq<InstanceId>, c: ContainerId, chs: seq<Choice>)
    requires AtStage(s, run, todo, CleanContainer(c)) && |chs| == 3 && todo[0] in s.w.rows && todo[0] in s.w.volumes
    requires todo[0] in s.w.containers && s.w.containers[todo[0]].id == c && Registered(s.w)
    ensures var r := todo[0];
            var row := s.w.rows[r].(status := if chs[2].write then Errored else s.w.rows[r].status);
            After(s, chs) == s.(w := s.w.(rows := s.w.rows[r := row],
                                          containers := if chs[0].ok then s.w.containers - {r} else s.w.containers,
                                          volumes := if chs[0].ok && chs[1].ok then s.w.volumes[r := Absent]
                                                     else s.w.volumes),
                                pc := NextDegraded(run, todo))
  {
    AfterThree(s, chs);
    assert s.w.rows[todo[0] := s.w.rows[todo[0]]] == s.w.rows;
  }

  // ---------- the router and the end ----------

  /** Without a password the router is left as it was and the failover ends degraded. */
  lemma RouterUnread(s: State, run: Rejoin, chs: seq<Choice>)
    requires s.pc == DropRouter(run) && |chs| == 2 && !chs[0].ok
    ensures After(s, chs) == s.(pc := Idle, w := s.w.(status := if chs[1].write then ClusterDegraded else s.w.status))
  {
    AfterTwo(s, chs);
  }

  /** A router that cannot be started, because the call fails or the old one is still there, leaves the failover
      degraded, and the cluster without a router if the old one was removed. */
  lemma RouterFails(s: State, run: Rejoin, chs: seq<Choice>)
    requires s.pc == DropRouter(run) && |chs| == 3 && chs[0].ok
    requires !chs[1].ok || (!chs[0].done && s.w.router.Some?)
    ensures After(s, chs) == s.(pc := Idle, w := s.w.(
                                  router := if chs[0].done then None else s.w.router,
                                  status := if chs[2].write then ClusterDegraded else s.w.status))
  {
    AfterThree(s, chs);
  }

  /** A router that starts has the new primary and the replicas that were read back; the failover then reports
      Running exactly if nothing degraded it and the router's row could be saved. */
  lemma RouterStarts(s: State, run: Rejoin, chs: seq<Choice>)
    requires s.pc == DropRouter(run) && |chs| == 4 && chs[0].ok && chs[1].ok && (chs[0].done || s.w.router.None?)
    ensures After(s, chs) == s.(pc := Idle, w := s.w.(
                                  router := Some(Router(run.newP, run.reattached, run.reattached == [])),
                                  status := if !chs[3].write then s.w.status
                                            else if run.degraded || !chs[2].write then ClusterDegraded
                                            else ClusterRunning))
  {
    AfterFour(s, chs);
  }

  /** When no replica is left the failover turns to the router. */
  lemma LoopEnds(s: State, run: Rejoin, at: Stage, ch: Choice)
    requires s.pc == Recloning(run, [], at)
    ensures Step(s, Controller(ch)) == s.(pc := DropRouter(run))
  {
  }

  // ---------- what happens outside ----------

  /** A stop of the control plane forgets where the controller and the reconciler stood and touches nothing else. */
  lemma StopForgets(s: State)
    ensures Step(s, ControlPlaneStop) == State(s.w, Idle, NoPass)
  {
  }

  /** A container that crashes, is revived or vanishes changes alone, and neither party notices. */
  lemma ContainersChange(s: State, i: InstanceId)
    requires i in s.w.containers
    ensures var c := s.w.containers[i].id;
            && Step(s, Crash(i)) == s.(w := s.w.(containers := s.w.containers[i := Container(c, false)]))
            && Step(s, Revive(i)) == s.(w := s.w.(containers := s.w.containers[i := Container(c, true)]))
            && i !in Step(s, Vanish(i)).w.containers
            && Step(s, Vanish(i)).w.containers[i := s.w.containers[i]] == s.w.containers
  {
  }

  /** A promotion that was only signalled may complete at any later moment. */
  lemma PromotionsComplete(s: State, i: InstanceId)
    requires i in s.w.volumes
    ensures var v := if s.w.volumes[i] == Promoting then Writable else s.w.volumes[i];
            Step(s, PromotionCompletes(i)) == s.(w := s.w.(volumes := s.w.volumes[i := v]))
  {
    assert s.w.volumes[i := s.w.volumes[i]] == s.w.volumes;
  }

  // ---------- everything works ----------

  /** A call that works; a replica reports a positive position. */
  predicate Works(ch: Choice) {
    ch.ok && ch.done && ch.write && ch.effect == Completed && ch.lsn > 0
  }

  ghost predicate AllWork(chs: seq<Choice>) {
    forall k :: 0 <= k < |chs| ==> Works(chs[k])
  }

  /** A supervised cluster with a dead primary `p`, whose container is still there, and at least one replica, all of
      them running standbys. */
  ghost predicate Bereft(w: World, p: InstanceId) {
    && Registered(w) && OrderOk(w.order, w.rows.Keys) && Supervised(w.status) && w.volumes.Keys == w.rows.Keys
    && (forall i :: i in w.rows ==>
          && w.rows[i].role == (if i == p then Primary else Replica)
          && i in w.containers && w.rows[i].cid == Some(w.containers[i].id)
          && (w.containers[i].running <==> i != p) && (i != p ==> w.volumes[i] == Standby))
    && p in w.rows && exists r :: r in w.rows && r != p
  }

  /** A running standby in a new container that its row names. */
  predicate Fresh(w: World, r: InstanceId, role: Role, floor: nat) {
    && r in w.rows && r in w.volumes && r in w.containers
    && w.rows[r] == Row(role, Some(w.containers[r].id), Running)
    && w.containers[r].running && w.containers[r].id >= floor && w.volumes[r] == Standby
  }

  /** The cluster is whole again: `newP` is the one primary and the one writer, the old primary a replica in error
      without a container, every other member a running standby in a new container that its row names, and the
      router spreads reads over exactly these. */
  ghost predicate Restored(w: World, w': World, p: InstanceId, newP: InstanceId, order: seq<InstanceId>) {
    && newP in w.rows && newP != p && w'.rows.Keys == w.rows.Keys
    && w'.status == ClusterRunning && w'.primary == Some(newP)
    && w'.router == Some(Router(newP, order, order == []))
    && (forall r :: r in order <==> r in w.rows && r != p && r != newP)
    && p in w'.rows && w'.rows[p] == Row(Replica, None, Errored) && p !in w'.containers
    && newP in w'.rows && w'.rows[newP] == Row(Primary, w.rows[newP].cid, Running)
    && newP in w.containers && newP in w'.containers && w'.containers[newP] == w.containers[newP]
    && newP in w'.volumes && w'.volumes[newP] == Writable
    && (forall r :: r in order ==> Fresh(w', r, Replica, |w.born|))
  }

  /** Probing replicas that all answer. */
  lemma {:induction false} ProbesAll(s: State, job: Job, todo: seq<InstanceId>, up: nat, chs: seq<Choice>)
    requires s.pc == Probing(job, todo, up) && |chs| == |todo| && AllWork(chs)
    requires forall k :: 0 <= k < |todo| ==> todo[k] in job.rows && Answers(s.w, job.rows[todo[k]], true)
    ensures After(s, chs) == s.(pc := Probing(job, [], up + |todo|))
    decreases |todo|
  {
    if todo == [] {
      assert chs == [];
    } else {
      AfterFirst(s, chs);
      assert Works(chs[0]) && todo[0] in job.rows;
      ProbesAll(s.(pc := Probing(job, todo[1..], up + 1)), job, todo[1..], up + 1, chs[1..]);
    }
  }

  /** Asking replicas that all answer for their positions: one of them is chosen. */
  lemma {:induction false} ElectsAll(s: State, job: Job, todo: seq<InstanceId>, chs: seq<Choice>, all: seq<InstanceId>)
    returns (newP: InstanceId)
    requires s.pc.Electing? && s.pc.job == job && s.pc.todo == todo && |chs| == |todo| && AllWork(chs)
    requires forall k :: 0 <= k < |todo| ==>
               todo[k] in all && todo[k] in job.rows && Answers(s.w, job.rows[todo[k]], true)
    requires if s.pc.best.Some? then s.pc.best.value in all else s.pc.bestLsn == 0 && todo != []
    ensures newP in all
    ensures var s' := After(s, chs); s'.pc.Electing? && s' == s.(pc := Electing(job, [], Some(newP), s'.pc.bestLsn))
    decreases |todo|
  {
    if todo == [] {
      assert chs == [];
      newP := s.pc.best.value;
    } else {
      AfterFirst(s, chs);
      assert Works(chs[0]) && todo[0] in job.rows && todo[0] in all;
      newP := ElectsAll(Step(s, Controller(chs[0])), job, todo[1..], chs[1..], all);
    }
  }

  /** A replica that is still to be re-cloned, as the failover found it. */
  predicate Pending(w: World, job: Job, r: InstanceId) {
    && r in w.rows && r in w.volumes && r in w.containers && r in job.rows
    && job.rows[r].cid == Some(w.containers[r].id)
  }

  /** These replicas have been re-cloned, and nothing else differs. */
  ghost predicate Recloned(w: World, w': World, todo: seq<InstanceId>) {
    && w'.rows.Keys == w.rows.Keys && w'.order == w.order && w'.status == w.status && w'.primary == w.primary
    && w'.router == w.router && |w.born| <= |w'.born| && Registered(w')
    && (forall r :: r in todo ==> r in w.rows && Fresh(w', r, w.rows[r].role, |w.born|))
    && (forall i :: i !in todo && i in w.rows ==> w'.rows[i] == w.rows[i])
    && (forall i :: i !in todo ==> (i in w'.volumes <==> i in w.volumes) && (i in w'.containers <==> i in w.containers))
    && (forall i :: i !in todo && i in w.volumes ==> w'.volumes[i] == w.volumes[i])
    && (forall i :: i !in todo && i in w.containers ==> w'.containers[i] == w.containers[i])
  }

  lemma RecloneOne(s: State, run: Rejoin, todo: seq<InstanceId>, chs: seq<Choice>)
    requires AtStage(s, run, todo, MarkProvisioning) && |chs| == 13 && AllWork(chs)
    requires Registered(s.w) && Pending(s.w, run.job, todo[0])
    ensures After(s, chs)
         == s.(w := Rejoined(s.w, todo[0]),
               pc := Recloning(run.(recloned := run.recloned + [todo[0]], reattached := run.reattached + [todo[0]]),
                               todo[1..], MarkProvisioning))
  {
    Part(chs, 12);
    AllWorkDecides(chs[..12], |s.w.born|);
    AfterSplit(s, chs[..12], chs[12..]);
    Clones(s, run, todo, chs[..12]);
    AfterOne(After(s, chs[..12]), chs[12..]);
    assert Works(chs[12]);
    RereadLeads(After(s, chs[..12]), run, todo, chs[12]);
  }

  lemma AllWorkDecides(chs: seq<Choice>, c: ContainerId)
    requires |chs| == 12 && AllWork(chs)
    ensures AllDecide(chs, c) && chs[1].ok
  {
    assert forall k :: 0 <= k < 12 ==> Works(chs[k]);
  }

  lemma RejoinedIs(w: World, job: Job, r: InstanceId, rest: seq<InstanceId>)
    requires Registered(w) && Pending(w, job, r) && r !in rest && forall i :: i in rest ==> Pending(w, job, i)
    ensures Recloned(w, Rejoined(w, r), [r]) && forall i :: i in rest ==> Pending(Rejoined(w, r), job, i)
  {
  }

  lemma RecloneThen(w: World, w1: World, w2: World, r: InstanceId, rest: seq<InstanceId>)
    requires r !in rest && Recloned(w, w1, [r]) && Recloned(w1, w2, rest)
    ensures Recloned(w, w2, [r] + rest)
  {
    FirstOrRest(r, rest);
    FreshKept(w, w1, w2, r, rest);
  }

  lemma FirstOrRest(r: InstanceId, rest: seq<InstanceId>)
    ensures r in [r] && (forall i :: i in [r] ==> i == r) && forall i :: i in [r] + rest <==> i == r || i in rest
  {
  }

  lemma FreshKept(w: World, w1: World, w2: World, r: InstanceId, rest: seq<InstanceId>)
    requires r !in rest && Recloned(w, w1, [r]) && Recloned(w1, w2, rest)
    ensures r in w.rows && Fresh(w2, r, w.rows[r].role, |w.born|)
    ensures forall i :: i in rest ==> i in w.rows && Fresh(w2, i, w.rows[i].role, |w.born|)
  {
    FirstOrRest(r, rest);
    assert Fresh(w1, r, w.rows[r].role, |w.born|);
  }

  /** Re-cloning all of them. */
  lemma {:induction false} ClonesAll(s: State, run: Rejoin, todo: seq<InstanceId>, chs: seq<Choice>)
    requires s.pc == Recloning(run, todo, MarkProvisioning) && |chs| == 13 * |todo| && AllWork(chs)
    requires Registered(s.w) && Distinct(todo) && forall r :: r in todo ==> Pending(s.w, run.job, r)
    ensures var s' := After(s, chs);
            && s'.rec == s.rec && Recloned(s.w, s'.w, todo)
            && s'.pc == Recloning(run.(recloned := run.recloned + todo, reattached := run.reattached + todo), [],
                                  MarkProvisioning)
    decreases |todo|
  {
    if todo == [] {
      assert run.recloned + todo == run.recloned && run.reattached + todo == run.reattached;
    } else {
      var r, rest := todo[0], todo[1..];
      var run1 := run.(recloned := run.recloned + [r], reattached := run.reattached + [r]);
      FirstOf(todo);
      Part(chs, 13);
      assert Pending(s.w, run.job, r);
      RecloneOne(s, run, todo, chs[..13]);
      RejoinedIs(s.w, run.job, r, rest);
      AfterSplit(s, chs[..13], chs[13..]);
      ClonesAll(After(s, chs[..13]), run1, rest, chs[13..]);
      RecloneThen(s.w, After(s, chs[..13]).w, After(s, chs).w, r, rest);
      RunGrows(run, run1, r, rest);
    }
  }

  lemma FirstOf(todo: seq<InstanceId>)
    requires todo != [] && Distinct(todo)
    ensures todo == [todo[0]] + todo[1..] && todo[0] !in todo[1..] && Distinct(todo[1..])
    ensures forall r :: r in todo[1..] ==> r in todo
  {
  }

  lemma Part(chs: seq<Choice>, n: nat)
    requires n <= |chs| && AllWork(chs)
    ensures chs == chs[..n] + chs[n..] && AllWork(chs[..n]) && AllWork(chs[n..])
  {
  }

  lemma RunGrows(run: Rejoin, run1: Rejoin, r: InstanceId, rest: seq<InstanceId>)
    requires run1 == run.(recloned := run.recloned + [r], reattached := run.reattached + [r])
    ensures run1.(recloned := run1.recloned + rest, reattached := run1.reattached + rest)
         == run.(recloned := run.recloned + ([r] + rest), reattached := run.reattached + ([r] + rest))
  {
    assert run.recloned + [r] + rest == run.recloned + ([r] + rest);
    assert run.reattached + [r] + rest == run.reattached + ([r] + rest);
  }

  // ---------- the whole failover ----------

  function JobOf(w: World, p: InstanceId): Job {
    Job(w.rows, Some(p), ReplicasOf(w.rows, w.order))
  }

  lemma BereftJob(w: World, p: InstanceId)
    requires Bereft(w, p)
    ensures PrimaryOf(w.rows, w.order) == Some(p) && JobOf(w, p).replicas != [] && Distinct(JobOf(w, p).replicas)
    ensures forall r :: r in JobOf(w, p).replicas <==> r in w.rows && r != p
    ensures forall r :: r in JobOf(w, p).replicas ==> Pending(w, JobOf(w, p), r) && Answers(w, w.rows[r], true)
  {
    var r :| r in w.rows && r != p;
    assert r in JobOf(w, p).replicas;
  }

  /** The check fails at the threshold. */
  lemma Opens(s: State, p: InstanceId, chs: seq<Choice>)
    requires s.pc.Idle? && Bereft(s.w, p) && |chs| == 2 && AllWork(chs)
    ensures After(s, chs) == s.(pc := Probing(JobOf(s.w, p), JobOf(s.w, p).replicas, 0))
  {
    AfterTwo(s, chs);
    BereftJob(s.w, p);
    assert Works(chs[0]) && Works(chs[1]);
    assert Step(s, Controller(chs[0])) == s.(pc := Checking(JobOf(s.w, p)));
    assert !Answers(s.w, s.w.rows[p], true);
  }

  ghost predicate AllAnswer(w: World, job: Job) {
    && job.replicas != []
    && forall k :: 0 <= k < |job.replicas| ==>
         job.replicas[k] in job.rows && Answers(w, job.rows[job.replicas[k]], true)
  }

  lemma PassesGuard(s: State, job: Job, chs: seq<Choice>)
    requires AllAnswer(s.w, job) && s.pc == Probing(job, job.replicas, 0)
    requires |chs| == |job.replicas| + 1 && AllWork(chs)
    ensures After(s, chs) == s.(pc := Electing(job, job.replicas, None, 0))
  {
    var n := |job.replicas|;
    Part(chs, n);
    AfterSplit(s, chs[..n], chs[n..]);
    ProbesAll(s, job, job.replicas, 0, chs[..n]);
    EnoughAnswered(After(s, chs[..n]), job, chs[n..]);
  }

  lemma EnoughAnswered(s: State, job: Job, chs: seq<Choice>)
    requires s.pc == Probing(job, [], |job.replicas|) && job.replicas != [] && |chs| == 1
    ensures After(s, chs) == s.(pc := Electing(job, job.replicas, None, 0))
  {
    AfterOne(s, chs);
    assert Needed(|job.replicas|) <= |job.replicas|;
  }

  lemma PicksOne(s: State, job: Job, chs: seq<Choice>) returns (newP: InstanceId)
    requires AllAnswer(s.w, job) && s.pc == Electing(job, job.replicas, None, 0)
    requires |chs| == |job.replicas| + 1 && AllWork(chs)
    ensures newP in job.replicas && After(s, chs) == s.(pc := Fencing(job, newP))
  {
    var n := |job.replicas|;
    Part(chs, n);
    AfterSplit(s, chs[..n], chs[n..]);
    newP := ElectsAll(s, job, job.replicas, chs[..n], job.replicas);
    GoesToFence(After(s, chs[..n]), job, newP, chs[n..]);
  }

  lemma GoesToFence(s: State, job: Job, newP: InstanceId, chs: seq<Choice>)
    requires s.pc.Electing? && s.pc == Electing(job, [], Some(newP), s.pc.bestLsn) && |chs| == 1
    ensures After(s, chs) == s.(pc := Fencing(job, newP))
  {
    AfterOne(s, chs);
  }

  /** The world when the new primary has taken over. */
  function TakenOver(w: World, p: InstanceId, newP: InstanceId): World
    requires newP in w.rows
  {
    w.(containers := w.containers - {p}, volumes := w.volumes[newP := Writable], primary := Some(newP),
       rows := w.rows[p := Row(Replica, None, Errored)][newP := Row(Primary, w.rows[newP].cid, Running)])
  }

  function RunOf(w: World, p: InstanceId, newP: InstanceId): Rejoin {
    Rejoin(JobOf(w, p), newP, true, w.primary, true, false, [], {}, [])
  }

  /** Fence and promotion. */
  lemma Promotes(s: State, p: InstanceId, newP: InstanceId, chs: seq<Choice>)
    requires Bereft(s.w, p) && newP in JobOf(s.w, p).replicas && s.pc == Fencing(JobOf(s.w, p), newP)
    requires |chs| == 3 && AllWork(chs)
    ensures After(s, chs)
         == s.(pc := Demote(JobOf(s.w, p), newP, true),
               w := s.w.(containers := s.w.containers - {p}, volumes := s.w.volumes[newP := Writable],
                         rows := s.w.rows[p := Row(Primary, None, s.w.rows[p].status)]))
  {
    AfterThree(s, chs);
    BereftReady(s.w, p, newP);
    assert Works(chs[0]) && Works(chs[1]) && Works(chs[2]);
    FenceLeads(s, p, chs[0]);
    var s1 := Step(s, Controller(chs[0]));
    ClearLeads(s1, p, chs[1]);
    PromoteLeads(Step(s1, Controller(chs[1])), chs[2]);
  }

  lemma BereftReady(w: World, p: InstanceId, newP: InstanceId)
    requires Bereft(w, p) && newP in JobOf(w, p).replicas
    ensures Ready(w, JobOf(w, p), p, newP) && newP in w.volumes && w.volumes[newP] == Standby
    ensures w.rows[p].role == Primary && Registered(w.(containers := w.containers - {p}))
  {
    BereftJob(w, p);
  }

  /** Roles and the cluster's row. */
  lemma Crowns(s: State, w: World, p: InstanceId, newP: InstanceId, chs: seq<Choice>)
    requires Bereft(w, p) && newP in JobOf(w, p).replicas && s.pc == Demote(JobOf(w, p), newP, true)
    requires s.w == w.(containers := w.containers - {p}, volumes := w.volumes[newP := Writable],
                       rows := w.rows[p := Row(Primary, None, w.rows[p].status)])
    requires |chs| == 3 && AllWork(chs)
    ensures After(s, chs)
         == s.(w := TakenOver(w, p, newP),
               pc := Recloning(RunOf(w, p, newP), Survivors(JobOf(w, p).replicas, newP), MarkProvisioning))
  {
    AfterThree(s, chs);
    BereftJob(w, p);
    assert Works(chs[0]) && Works(chs[1]) && Works(chs[2]);
    RolesChange(s, p, chs[0], chs[1]);
    SaveLeads(Step(Step(s, Controller(chs[0])), Controller(chs[1])), chs[2]);
    WriteTwice(w.rows, p, Row(Primary, None, w.rows[p].status), Row(Replica, None, Errored));
  }

  lemma TakesOver(s: State, p: InstanceId, newP: InstanceId, chs: seq<Choice>)
    requires Bereft(s.w, p) && newP in JobOf(s.w, p).replicas && s.pc == Fencing(JobOf(s.w, p), newP)
    requires |chs| == 6 && AllWork(chs)
    ensures After(s, chs)
         == s.(w := TakenOver(s.w, p, newP),
               pc := Recloning(RunOf(s.w, p, newP), Survivors(JobOf(s.w, p).replicas, newP), MarkProvisioning))
  {
    Part(chs, 3);
    AfterSplit(s, chs[..3], chs[3..]);
    Promotes(s, p, newP, chs[..3]);
    Crowns(After(s, chs[..3]), s.w, p, newP, chs[3..]);
  }

  lemma {:induction false} SurvivorCount(replicas: seq<InstanceId>, newP: InstanceId)
    requires Distinct(replicas)
    ensures |Survivors(replicas, newP)| == |replicas| - (if newP in replicas then 1 else 0)
  {
    if replicas != [] {
      var front := replicas[..|replicas| - 1];
      assert replicas == front + [replicas[|replicas| - 1]];
      SurvivorCount(front, newP);
    }
  }

  /** Re-clones, router and the final status. */
  lemma Finishes(s: State, w: World, p: InstanceId, newP: InstanceId, chs: seq<Choice>)
    requires Bereft(w, p) && newP in JobOf(w, p).replicas && s.w == TakenOver(w, p, newP)
    requires s.pc == Recloning(RunOf(w, p, newP), Survivors(JobOf(w, p).replicas, newP), MarkProvisioning)
    requires |chs| == 13 * |Survivors(JobOf(w, p).replicas, newP)| + 5 && AllWork(chs)
    ensures var s' := After(s, chs);
            s'.pc.Idle? && s'.rec == s.rec && Restored(w, s'.w, p, newP, Survivors(JobOf(w, p).replicas, newP))
  {
    var run, todo := RunOf(w, p, newP), Survivors(JobOf(w, p).replicas, newP);
    var n := 13 * |todo|;
    BereftJob(w, p);
    StillPending(w, p, newP);
    Part(chs, n);
    AfterSplit(s, chs[..n], chs[n..]);
    ClonesAll(s, run, todo, chs[..n]);
    EmptyFirst(todo);
    EndsWell(After(s, chs[..n]), run.(recloned := todo, reattached := todo), chs[n..]);
    WholeAgain(w, After(s, chs[..n]).w, p, newP, todo);
  }

  lemma EmptyFirst(todo: seq<InstanceId>)
    ensures [] + todo == todo
  {
  }

  /** The loop ends, the router starts, and the failover reports Running. */
  lemma EndsWell(s: State, run: Rejoin, chs: seq<Choice>)
    requires s.pc == Recloning(run, [], MarkProvisioning) && !run.degraded && |chs| == 5 && AllWork(chs)
    ensures After(s, chs)
         == s.(pc := Idle, w := s.w.(router := Some(Router(run.newP, run.reattached, run.reattached == [])),
                                     status := ClusterRunning))
  {
    AfterFirst(s, chs);
    Part(chs, 1);
    LoopEnds(s, run, MarkProvisioning, chs[0]);
    LastCalls(Step(s, Controller(chs[0])), run, chs[1..]);
  }

  lemma LastCalls(s: State, run: Rejoin, chs: seq<Choice>)
    requires s.pc == DropRouter(run) && !run.degraded && |chs| == 4 && AllWork(chs)
    ensures After(s, chs)
         == s.(pc := Idle, w := s.w.(router := Some(Router(run.newP, run.reattached, run.reattached == [])),
                                     status := ClusterRunning))
  {
    assert Works(chs[0]) && Works(chs[1]) && Works(chs[2]) && Works(chs[3]);
    RouterStarts(s, run, chs);
  }

  lemma StillPending(w: World, p: InstanceId, newP: InstanceId)
    requires Bereft(w, p) && newP in JobOf(w, p).replicas
    ensures var w1 := TakenOver(w, p, newP); var todo := Survivors(JobOf(w, p).replicas, newP);
            && Registered(w1) && Distinct(todo) && (forall r :: r in todo <==> r in w.rows && r != p && r != newP)
            && forall r :: r in todo ==> Pending(w1, JobOf(w, p), r)
  {
    BereftJob(w, p);
    forall r | r in Survivors(JobOf(w, p).replicas, newP) ensures Pending(TakenOver(w, p, newP), JobOf(w, p), r) {
      PendingStill(w, p, newP, r);
    }
  }

  lemma PendingStill(w: World, p: InstanceId, newP: InstanceId, r: InstanceId)
    requires newP in w.rows && r != p && r != newP && Pending(w, JobOf(w, p), r)
    ensures Pending(TakenOver(w, p, newP), JobOf(w, p), r)
  {
  }

  lemma WholeAgain(w: World, w': World, p: InstanceId, newP: InstanceId, todo: seq<InstanceId>)
    requires Bereft(w, p) && newP in w.rows && newP != p && Recloned(TakenOver(w, p, newP), w', todo)
    requires forall r :: r in todo <==> r in w.rows && r != p && r != newP
    ensures Restored(w, w'.(router := Some(Router(newP, todo, todo == [])), status := ClusterRunning), p, newP, todo)
  {
    LeadersWhole(w, w', p, newP, todo);
    FreshAll(w, w', p, newP, todo, Router(newP, todo, todo == []));
    AllParts(w, w'.(router := Some(Router(newP, todo, todo == [])), status := ClusterRunning), p, newP, todo);
  }

  /** What makes a cluster whole. */
  lemma AllParts(w: World, u: World, p: InstanceId, newP: InstanceId, todo: seq<InstanceId>)
    requires newP in w.rows && newP != p && u.rows.Keys == w.rows.Keys && u.status == ClusterRunning
    requires u.primary == Some(newP) && u.router == Some(Router(newP, todo, todo == []))
    requires forall r :: r in todo <==> r in w.rows && r != p && r != newP
    requires p in u.rows && u.rows[p] == Row(Replica, None, Errored) && p !in u.containers
    requires newP in u.rows && u.rows[newP] == Row(Primary, w.rows[newP].cid, Running)
    requires newP in w.containers && newP in u.containers && u.containers[newP] == w.containers[newP]
    requires newP in u.volumes && u.volumes[newP] == Writable
    requires forall r :: r in todo ==> Fresh(u, r, Replica, |w.born|)
    ensures Restored(w, u, p, newP, todo)
  {
  }

  lemma FreshAll(w: World, w': World, p: InstanceId, newP: InstanceId, todo: seq<InstanceId>, router: Router)
    requires Bereft(w, p) && newP in w.rows && Recloned(TakenOver(w, p, newP), w', todo)
    requires forall r :: r in todo ==> r in w.rows && r != p && r != newP
    ensures forall r :: r in todo ==> Fresh(w'.(router := Some(router), status := ClusterRunning), r, Replica, |w.born|)
  {
    forall r | r in todo ensures Fresh(w', r, Replica, |w.born|) {
      assert TakenOver(w, p, newP).rows[r] == w.rows[r];
    }
  }

  lemma LeadersWhole(w: World, w': World, p: InstanceId, newP: InstanceId, todo: seq<InstanceId>)
    requires Bereft(w, p) && newP in w.rows && newP != p && Recloned(TakenOver(w, p, newP), w', todo)
    requires p !in todo && newP !in todo
    ensures w'.rows.Keys == w.rows.Keys && w'.primary == Some(newP)
    ensures p in w'.rows && w'.rows[p] == Row(Replica, None, Errored) && p !in w'.containers
    ensures newP in w'.rows && w'.rows[newP] == Row(Primary, w.rows[newP].cid, Running)
    ensures newP in w'.containers && newP in w.containers && w'.containers[newP] == w.containers[newP]
    ensures newP in w'.volumes && w'.volumes[newP] == Writable
  {
  }

  /** A failover that nobody interferes with and whose calls all work makes a cluster of any size with a dead
      primary whole again, whatever positions the replicas report: after a fixed number of steps it reports
      Running, one of the replicas is the primary and accepts writes, the old primary is fenced, and all other
      members are running standbys that the router reads from. */
  lemma FailoverCompletes(s: State, p: InstanceId, chs: seq<Choice>) returns (newP: InstanceId)
    requires s.pc.Idle? && Bereft(s.w, p) && AllWork(chs)
    requires var n := |ReplicasOf(s.w.rows, s.w.order)|; |chs| == 2 + (n + 1) + (n + 1) + 6 + 13 * (n - 1) + 5
    ensures var s' := After(s, chs);
            && s'.pc.Idle? && s'.rec == s.rec
            && Restored(s.w, s'.w, p, newP, Survivors(ReplicasOf(s.w.rows, s.w.order), newP))
  {
    var n := |JobOf(s.w, p).replicas|;
    var m := 2 * n + 4;
    Part(chs, m);
    AfterSplit(s, chs[..m], chs[m..]);
    newP := PicksPrimary(s, p, chs[..m]);
    var s3 := After(s, chs[..m]);
    Part(chs[m..], 6);
    AfterSplit(s3, chs[m..][..6], chs[m..][6..]);
    TakesOver(s3, p, newP, chs[m..][..6]);
    BereftJob(s.w, p);
    SurvivorCount(JobOf(s.w, p).replicas, newP);
    Finishes(After(s3, chs[m..][..6]), s.w, p, newP, chs[m..][6..]);
  }

  lemma BereftAnswers(w: World, p: InstanceId)
    requires Bereft(w, p)
    ensures AllAnswer(w, JobOf(w, p))
  {
    BereftJob(w, p);
    var job := JobOf(w, p);
    forall k | 0 <= k < |job.replicas| ensures job.replicas[k] in job.rows
                                       ensures Answers(w, job.rows[job.replicas[k]], true)
    {
      assert job.replicas[k] in job.replicas;
    }
  }

  /** From the first failed check to the choice of the new primary. */
  lemma PicksPrimary(s: State, p: InstanceId, chs: seq<Choice>) returns (newP: InstanceId)
    requires s.pc.Idle? && Bereft(s.w, p) && AllWork(chs) && |chs| == 2 * |JobOf(s.w, p).replicas| + 4
    ensures newP in JobOf(s.w, p).replicas && After(s, chs) == s.(pc := Fencing(JobOf(s.w, p), newP))
  {
    var job := JobOf(s.w, p);
    var n := |job.replicas|;
    BereftAnswers(s.w, p);
    Part(chs, 2);
    AfterSplit(s, chs[..2], chs[2..]);
    Opens(s, p, chs[..2]);
    newP := Chooses(After(s, chs[..2]), job, chs[2..]);
  }

  lemma Chooses(s: State, job: Job, chs: seq<Choice>) returns (newP: InstanceId)
    requires AllAnswer(s.w, job) && s.pc == Probing(job, job.replicas, 0) && AllWork(chs)
    requires |chs| == 2 * |job.replicas| + 2
    ensures newP in job.replicas && After(s, chs) == s.(pc := Fencing(job, newP))
  {
    var n := |job.replicas| + 1;
    Part(chs, n);
    AfterSplit(s, chs[..n], chs[n..]);
    PassesGuard(s, job, chs[..n]);
    newP := PicksOne(After(s, chs[..n]), job, chs[n..]);
  }
}
