# PgFleet, verified

PgFleet is a control plane that drives an unreliable world (Docker, Postgres nodes and a meta
database) in small steps.  This project models the parts of it whose correctness is a property of
whole runs, and proves those properties in Dafny 4.11.  `dafny verify dfyconfig.toml` checks
everything.

| module | what it models |
|---|---|
| `Optional`, `Fleet` | missing values; meta-database rows, containers, volumes and routers of one cluster |
| `FailoverProtocol` | failover controller, reconciler and environment as one state machine, step by step |
| `FailoverSafety` | the inductive invariant, split-brain safety and agreement over every trusted run |
| `FailoverElection` | every run that fences heard from a quorum and fences for the winner of the election |
| `FailoverTrigger` | when a failover starts, and that an answering primary is left alone |
| `FailoverOutcome` | what a failover nobody interferes with leads to, call by call and as a whole |
| `FailoverFence` | exactly when the fence lets a failover go on |
| `FailoverScenarios`, `FailoverLimits` | small clusters and runs on them: each assumption is needed, each gap in agreement is reached |
| `FailoverMark` | the reconciler next to a re-clone: exactly when the provisioning mark protects the replica |
| `FailoverReconcile` | uninterrupted passes of the protocol's reconciler, joined to the model of the reconciler itself |
| `FailoverPass` | one pass over all clusters: splitting members, counting strikes, pruning counters |
| `Quorum` | the quorum guard and the election |
| `RouterPool` | the router's server list and where reads go |
| `ClusterSetup` | cluster creation, which establishes the state the failover protocol starts from |
| `Reconcile` | the reconciler's pass over the instance table |
| `Restore` | in-place restore by volume swap, visibility flips, and dying after any step |
| `Transfers` | the load generator's transfer transactions under row locks, and its oracle |
| `Catalog` | the backup catalog against the pgBackRest repository |
| `Alerts` | alert rows and transitions against findings |
| `Redact`, `Shell` | secret redaction of command output; shell quoting |
| `Scheduler`, `Async`, `Hub` | interval scheduler, tracked background work, publish/subscribe hub |

## How runs are modelled

Concurrent parts are state machines with a total step function.  An event names one step of one
party and carries the outcome of every call that may go either way, so the finite event sequences
are exactly the runs: any interleaving, any crash, any failing call.  A failover step is one call, or
the two adjacent meta-database writes of a step that makes two.  Code that is sequential in the source
(loops that update variables, objects whose methods change their fields) is a method with loops or a
class, proved against a specification function or an independent property.

What the environment may do to a container, to a promotion under way and to the control plane is said by
`FailoverOutcome.ContainersChange`, `PromotionsComplete` and `StopForgets`.

Assumptions are explicit and nothing else is assumed:

- **Failover** (`FailoverProtocol.Trusted`): there is one control plane; it does not stop between
  the delivery of `pg_promote` and the write of the new primary's role; and the three writes made in
  that window succeed (the cluster's error status after a failed promotion, the demotion of the old
  primary's role, the promotion of the new one's).  Every other write, read and runtime call may
  fail, and a failed removal or promotion may still have taken effect.  Docker keeps one container
  per name, does not remove a mounted volume, and a removal that reports success has removed.
- **Restore**: cleanup removals, the last inspection and the write of the row's volume are
  parameters; the contracts say what holds with and without them.  Status writes succeed, and so do
  the container-id writes of a flip.  Docker keeps one container per name and does not remove a
  mounted volume.
- **Catalog** (`Catalog.Honest`): for agreement with the repository, a healthy `pgbackrest info`
  reports it exactly; an unhealthy one may report anything.
- **Transfers**: PostgreSQL row locks behave as section 13.3.2 of its documentation says.

## What the model found

- Each assumption of split-brain safety is needed.  A control-plane stop inside the promotion window,
  or the loss of any one of the window's three writes, leads to two writable primaries
  (`StopInsideWindowSplitsBrain`, `LostErrorSplitsBrain`, `LostDemotionSplitsBrain`,
  `LostRoleSplitsBrain`).
- A failover that reports Running can fall short of agreement in three ways it does not notice, and
  `RunningMeansAgreement` says exactly when.  The new primary accepts writes if and only if pg_promote
  took effect, and psql exits zero when it did not (`RunningWithoutWriter`).  The cluster row names it
  if and only if that write succeeded or it named it already; the Degraded status written for the
  loss is overwritten by Running (`RunningWithStalePrimary`).  The router has all survivors if and
  only if every re-cloned row could be re-read (`RunningWithoutReplica`).
- A primary whose recorded container has vanished can never be fenced, because removing it reports
  not found: every failover of it ends in error (`VanishedNeverFenced`), and a trusted run gets there
  (`VanishedReached`).
- Restores and flips can put two Postgres servers on one data directory.  A flip does so at some step if
  and only if two servers were there before, or it starts a container while something the removal left
  still runs on the data (`SoloFlip`); a restore if and only if two were there before, or it rolls back
  and restarts the original beside another server (`SoloRestore`).  The shortest run needs no failing
  write or removal: a restore whose last inspection fails leaves the row with a dead container id, the
  next flip removes nothing, and its replacement starts beside the restored server
  (`RestoreThenFlip`).  The volume the row names always exists; what it holds is claimed only up to the
  first moment two servers shared it (`ServeAll`), and orderly runs never get there (`ServeAllTidy`).
- A restore that is refused sets the instance to error: a healthy running primary of a cluster that
  somebody asks to restore in place is marked errored, and the reconciler leaves errored rows alone for
  ever (`Restore.Host.Restore`, `Reconcile.InFlightUntouched`).
- A committed restore exchanges exactly one volume and one container if and only if the world was
  tidy, that is, only the recorded container mounted the instance's data.  The code does not keep
  that: a restore whose last inspection fails leaves the row naming the container it removed, and the
  next restore then leaves the first one's container and volume behind, although every write and every
  removal works (`RestoreTwice`).  A world stays tidy through a committed restore if and only if its
  last inspection succeeds, through a rolled-back one always, and through a flip that creates a
  container if and only if the removal freed the volume; a reconcile pass in between repairs it
  (`RepairsRestore`).
- `restore` ignores the result of saving the new volume name before it removes the old volume: with
  cleanup working, a restore of a tidy world is safe if and only if that write succeeded
  (`Restore.Host.Restore`).
- A flip whose replacement was created but did not start always ends stopped: recovery never removes
  that replacement, so Docker refuses the recovery's container of the same name (`Restore.Host.Flip`).
- A stanza that is unhealthy but lists some backups is trusted, so the sync removes the rows of
  backups the repository holds but did not list, from every start and for every such report
  (`UnhealthyListingHidesBackups`); agreement with the repository holds for healthy stanzas.
- A reconcile pass is independent of the order in which Docker lists containers if and only if no
  instance has two main containers (`OrderMatters`); with two, passes over an unchanged world can
  rewrite a row for ever (`TwoMainsFlap`).
- Marking a replica provisioning protects it during its re-clone, through every interleaving, if and only
  if the reconcile pass under way does not threaten it (`MarkHoldsExactly`).  It does if it read the row
  as running or stopped before the mark and has yet to come to it, and can still find a container to
  judge by, or finds none for a row it read as running.  A pass that starts afterwards never does; a run
  that loses the mark is `StalePassClobbers`.
- The comment on `redactSecrets` says the longest keys must come first; the result does not depend
  on the order of the keys at all (`RedactedTwice`, `RedactBoth`), because every marker ends in `=`.

## Model

| member | source | states |
|---|---|---|
| `FailoverSafety.NoSplitBrain` | internal/failover/failover.go:164-308 | in every state of every trusted run from a provisioned cluster, through any interleaving of failover steps, reconcile steps, crashes, revivals, vanishing containers, late promotions and failed calls, at most one existing container is or may become a writable primary, and at most one row has role primary |
| `FailoverSafety.RunKeepsInv` | internal/failover/failover.go:87-343 | the inductive invariant behind it: whoever can write is named by the rows while the cluster is supervised, by nobody after the fence, and by the promoted replica inside the promotion window |
| `FailoverSafety.FenceRemovesWriter` | internal/provision/failover_support.go:59-72 | a fence that reports success leaves no container that could accept writes, whatever the reconciler did to the rows meanwhile |
| `FailoverSafety.PromotionWriters` | internal/provision/failover_support.go:45-54 | after a promotion attempt, whatever it reported, only the elected replica can accept writes |
| `FailoverSafety.ReconcilerKeeps` | internal/reconcile/reconcile.go:38-109 | no reconcile step, working on rows and containers it read at any earlier time, breaks the invariant at any point of a failover |
| `FailoverSafety.RecloneKeeps` | internal/failover/failover.go:268-296 | no stage of re-cloning a replica, its cleanup included, creates a writer or touches another member |
| `FailoverSafety.RunningMeansAgreement` | internal/failover/failover.go:242-343 | when a failover reports Running, its new primary is the only primary row, the only possible writer and the router's primary backend, and primary reads are on exactly when the router has no replica; while its container exists it is a writer if and only if pg_promote took effect; the cluster row names it if and only if that write succeeded or it named it already; the router's replicas are all survivors if and only if every re-cloned row could be re-read, and always those that could, each on a fresh standby volume |
| `FailoverElection.FencesForTheWinner` | internal/failover/failover.go:145-217 | in every run, a failover about to fence has had at least the needed number of distinct replicas answer the guard, and its candidate is the first eligible replica with the highest position |
| `FailoverElection.GuardRun` | internal/failover/failover.go:184-210 | along every run the guard's counter is the number of distinct replicas that answered so far |
| `FailoverElection.ElectionRun` | internal/failover/failover.go:145-162 | along every run the best so far is the winner of the probes so far |
| `FailoverTrigger.TakesUpExactly` | internal/failover/failover.go:87-103 | from every idle state of every run a pass takes up the cluster if and only if it is running or degraded and its members can be read, and then works on exactly the rows, the primary and the replicas of that moment |
| `FailoverTrigger.StartsExactly` | internal/failover/failover.go:104-118 | in every run a check starts a failover if and only if the threshold is reached and there is no primary, it has no container recorded, the recorded one does not run, or it does not answer; a check changes nothing |
| `FailoverTrigger.StartsAtThreshold` | internal/failover/failover.go:105-118 | in every run whose threshold decisions are the pass's counter, a failover starts exactly at the threshold-th silent check in a row since the control plane started, the last answered check or the last attempt |
| `FailoverTrigger.HealthyLeftAlone` | internal/failover/failover.go:93-107 | along every run in which the primary's recorded container runs and every check is answered, the world and the reconciler's pass are at every point what they would be without the controller's steps |
| `FailoverTrigger.GuardDecides` | internal/failover/failover.go:184-210 | in every run the failover goes on to the election if and only if enough distinct replicas answered, and otherwise ends in error with nothing else changed |
| `FailoverTrigger.ElectionDecides` | internal/failover/failover.go:212-217 | in every run the failover goes on to fence if and only if some probed replica was eligible, and otherwise ends in error with nothing else changed |
| `FailoverTrigger.AnswersExactly` | internal/provision/failover_support.go:12-20 | a member answers exactly if some container runs under its recorded id and the call reports so |
| `FailoverOutcome.FailoverCompletes` | internal/failover/failover.go:87-343 | from every idle state of a cluster of any size with a dead primary, undisturbed and with every call working, whatever positions the replicas report: after a fixed number of steps the failover reports Running, one replica is the one primary and writer, the old primary is fenced and in error, every other member is a running standby in a new container that its row names, and the router spreads reads over exactly these |
| `FailoverOutcome.FenceLeads` | internal/failover/failover.go:223-230 | the whole state after the fence of an existing container: it is gone and nothing else changed, or the failover ended in error |
| `FailoverOutcome.NothingToFence` | internal/provision/failover_support.go:61-64 | with no container recorded for the old primary the failover goes straight on to the promotion |
| `FailoverOutcome.FailureLeads` | internal/failover/failover.go:232-235 | a failed promotion ends the failover in error, if that can be written, and changes nothing else |
| `FailoverOutcome.PromoteLeads` | internal/failover/failover.go:232-235 | the whole state after the promotion: the chosen volume changes by what pg_promote did, and the failover goes on exactly if the container runs and the call reports success |
| `FailoverOutcome.RolesChange` | internal/failover/failover.go:247-252 | after the two role changes the old primary is a replica, in error if that was written, the new one the primary, running if that was written, and no other row changed |
| `FailoverOutcome.SaveLeads` | internal/failover/failover.go:252-258 | the primary id is saved, or the cluster is marked degraded if that can be written, and the re-clones begin |
| `FailoverOutcome.Clones` | internal/provision/replica.go:18-114 | a re-clone whose deciding calls work leaves exactly a running standby in a new container that its row names, whatever the replica was before and whichever of the other writes fail |
| `FailoverOutcome.SaysMeanwhile` | internal/provision/replica.go:18-87 | during a re-clone the row says provisioning, then no container, then the new one, as far as each write works, and no other row changes |
| `FailoverOutcome.GivesUp` | internal/failover/failover.go:272-292 | a volume that cannot be removed, a primary that cannot be prepared, a volume that cannot be created or a lost last write mark the replica failed and degrade the failover, and change nothing else |
| `FailoverOutcome.GivesUpFilling` | internal/provision/replica.go:37-75 | after a failed base backup or container the volume is removed, if that works, the replica marked failed and the failover degraded |
| `FailoverOutcome.GivesUpStarting` | internal/provision/replica.go:37-108 | after a container that does not start or stream it is removed, if that works, then the volume, the replica is marked failed and the failover degraded |
| `FailoverOutcome.RouterStarts` | internal/failover/failover.go:297-343 | a router that starts has the new primary and the re-read replicas, and the failover reports Running if and only if nothing degraded it and the router's row was saved |
| `FailoverOutcome.RouterFails` | internal/failover/failover.go:310-343 | a router that cannot be started leaves the cluster degraded, and without a router if the old one was removed |
| `FailoverOutcome.RouterUnread` | internal/failover/failover.go:310-325 | without a password the old router stays and the failover ends degraded |
| `FailoverFence.FencePasses` | internal/provision/failover_support.go:59-72 | the failover goes on if and only if no container is recorded for the old primary, or it exists and its removal reports success; otherwise it ends in error; a fence that passed has removed it |
| `FailoverElection.CandidateLosesNothing` | internal/failover/failover.go:145-230 | in every run about to fence, if the eligible replicas had replayed prefixes of one log when probed, the candidate's history extends the history of each of them |
| `FailoverFence.VanishedReached` | internal/failover/failover.go:223-230 | a trusted run from a provisioned cluster in which a failover is about to fence a primary whose recorded container has vanished |
| `FailoverFence.VanishedNeverFenced` | internal/failover/failover.go:223-230 | once the recorded container of a primary is gone, in every later state every fence aimed at it ends in error |
| `FailoverLimits.StopInsideWindowSplitsBrain` | internal/failover/failover.go:232-251 | a run from a provisioned three-node cluster with every window write succeeding and one stop inside the window that ends with two writable primaries |
| `FailoverLimits.LostDemotionSplitsBrain` | internal/failover/failover.go:247-251 | a run without such a stop in which the lost demotion ends with two writable primaries |
| `FailoverLimits.LostErrorSplitsBrain` | internal/failover/failover.go:232-235 | a run in which a promotion that worked reports an error, the cluster's error status is lost, and the next failover makes a second writable primary |
| `FailoverLimits.LostRoleSplitsBrain` | internal/failover/failover.go:247-252 | a run of a four-node cluster in which the new primary's role is lost, and the next failover finds nobody to fence and makes a second writable primary |
| `FailoverLimits.RunningWithStalePrimary` | internal/failover/failover.go:252-306 | a trusted run from a provisioned two-node cluster: SetPrimary is lost and Running overwrites Degraded, while the cluster row names the fenced primary |
| `FailoverLimits.RunningWithoutWriter` | internal/provision/failover_support.go:45-54 | a trusted run: pg_promote does nothing while psql exits zero, and the failover reports Running with every record naming the new primary and nobody accepting writes |
| `FailoverLimits.RunningWithoutReplica` | internal/failover/failover.go:293-306 | a trusted run: a replica is re-cloned, its row cannot be re-read, and the failover reports Running with a router that has no replica |
| `FailoverReconcile.PassesSpare` | internal/reconcile/reconcile.go:71-77 | however far a pass gets, an instance that was provisioning, restoring, destroying or errored when it began keeps its row |
| `FailoverReconcile.WholePass` | internal/reconcile/reconcile.go:38-109 | a whole uninterrupted pass of the protocol's reconciler, whichever of its calls fail, changes the rows exactly as `Reconcile.Pass` does for the containers found and a truthful report of what the calls returned, and changes nothing else |
| `FailoverReconcile.RunRegular` | internal/reconcile/reconcile.go:38-62 | in every state of every run the listing names each member once and containers are registered under their instance, which is all `WholePass` asks for |
| `FailoverMark.MarkHoldsExactly` | internal/failover/failover.go:272-296 | in every state that any run reaches while a marked replica is being re-cloned: its row stays marked in every continuation of the re-clone, reconcile steps interleaved anywhere, if and only if the pass under way does not threaten it |
| `FailoverMark.MarkStays` | internal/reconcile/reconcile.go:71-77 | along every event sequence of a re-clone an unthreatened mark stays, and stays unthreatened |
| `FailoverMark.MarkLost` | internal/reconcile/reconcile.go:79-108 | from every threatened state there is a continuation of the re-clone that unmarks the row |
| `FailoverMark.StalePassClobbers` | internal/reconcile/reconcile.go:79-88 | a trusted run: the reconciler reads the rows, the controller marks a replica and removes its container, the reconciler lists the containers and turns the row to error in mid-clone |
| `FailoverPass.SplitMembers` | internal/failover/failover.go:128-143 | the loop returns the last listed primary and the replicas in listing order; with one primary row, exactly that one |
| `FailoverPass.StrikesCountBack` | internal/failover/failover.go:105-116 | the counter is below the threshold and counts exactly the failed checks since the last good check or attempt |
| `FailoverPass.AttemptExactlyAtThreshold` | internal/failover/failover.go:105-116 | a check starts a failover if and only if it is the threshold-th consecutive failed check since the last good check or attempt |
| `FailoverPass.Controller.constructor` | internal/failover/failover.go:73-84 | the threshold is the configured one, or 3 when that is below 1 |
| `FailoverPass.Controller.Run` | internal/failover/failover.go:87-126 | a pass extends each supervised cluster's history by its check and starts a failover exactly where the history calls for one; afterwards every counter is below the threshold and only listed clusters have one |
| `FailoverPass.Controller.Record` | internal/failover/failover.go:93-118 | one cluster's turn: its counter still equals the strikes of its history, other clusters are untouched |
| `FailoverPass.Controller.Prune` | internal/failover/failover.go:119-125 | counters of clusters no longer listed disappear, listed ones keep theirs |
| `Quorum.Guard` | internal/failover/failover.go:184-210 | the guard's loop passes if and only if enough distinct replicas answered |
| `Quorum.QuorumIntersection` | internal/failover/failover.go:184-210 | two passing sets share a replica; with two or more replicas the members outside a passing set, old primary included, are not a majority; without replicas nothing passes |
| `Quorum.OneSidePromotes` | internal/failover/failover.go:164-210 | the two sides of a partition cannot both pass the guard |
| `Quorum.Elect` | internal/failover/failover.go:145-162 | the loop returns the first eligible replica with the highest position, and none exactly when none is eligible |
| `Quorum.LongestHistory` | internal/failover/failover.go:145-162 | with replicas on prefixes of one log, the winner's history extends that of every eligible replica, and the election fails if and only if no readable replica has replayed anything |
| `RouterPool.Members` | internal/provision/router.go:112-146 | the server list reads back as the primary followed by exactly the replicas in order |
| `RouterPool.PrimaryReads` | internal/pgcat/config.go:104-118 | reads on the primary are enabled if and only if the list has no replica |
| `RouterPool.Configure` | internal/provision/router.go:53-146 | the router read off the server list of a primary and its replicas is the pool the protocol records |
| `ClusterSetup.Create` | internal/clusterctl/service.go:83-135 | succeeds exactly for 0 to 9 replicas with valid names and no failing insert, leaving one primary row and the replica rows; otherwise nothing is left |
| `ClusterSetup.Service.Provision` | internal/clusterctl/service.go:140-204 | succeeds if and only if every call and the final status write do, and then the cluster is in an initial state of the failover protocol; whatever fails and whatever a failed member leaves behind, one writer and one primary row at most, the members before it are up, those after it untouched, and the cluster is in error if that could be written |
| `ClusterSetup.BuiltIsProvisioned` | internal/clusterctl/service.go:148-204 | members brought up in order plus the router over them make a provisioned cluster |
| `ClusterSetup.Establish` | internal/clusterctl/service.go:83-204 | creating a cluster and provisioning it ends in an initial state of the failover protocol if and only if every check and call of both works |
| `Reconcile.Index` | internal/reconcile/reconcile.go:48-62 | the loop indexes each instance's last main container and no transient helper |
| `Reconcile.Reconciler.Reconcile` | internal/reconcile/reconcile.go:38-68 | a pass takes every row to its settled value; it issues no update if and only if every row already agrees with its container; a failed listing changes nothing |
| `Reconcile.Reconciler.ReconcileOne` | internal/reconcile/reconcile.go:70-109 | one row is settled, no other row changes, and an update is issued exactly when the row disagrees |
| `Reconcile.InFlightUntouched` | internal/reconcile/reconcile.go:71-77 | a pass at any moment leaves a provisioning, restoring, destroying or errored instance as it is |
| `Reconcile.PassSettles` | internal/reconcile/reconcile.go:79-108 | after a pass whose writes were accepted, a running or stopped instance whose container was inspected has that id and the matching status, and a running instance without a container is in error |
| `Reconcile.PassColumns` | internal/reconcile/reconcile.go:71-109 | each column of each row after a pass, whichever containers could be inspected and whichever writes were accepted |
| `Reconcile.SecondPassIsSilent` | internal/reconcile/reconcile.go:38-109 | with one main container per instance, a second pass over the same containers, listed in any order, writes nothing |
| `Reconcile.OrderMatters` | internal/reconcile/reconcile.go:48-62 | the index is the same for every order of the listing if and only if no instance has two main containers |
| `Reconcile.TwoMainsFlap` | internal/reconcile/reconcile.go:95-98 | with two main containers, two passes over an unchanged world change a row and change it back |
| `Reconcile.RepairsRestore` | internal/reconcile/reconcile.go:95-108 | the pass after a committed restore whose last inspection failed, provided the instance's listed main containers are on the new volume, replaces the removed container's id by the new one, which makes the untidy world tidy again |
| `Restore.Host.Restore` | internal/provision/restore.go:39-168 | commits if and only if the instance is standalone and every call that matters works; if the row's volume can be saved, every world on the way is safe and keeps the original contents; refused exactly for clustered primaries and replicas; a rolled-back restore leaves the row but for its status, and with working cleanup every volume and container, as they were; a committed one with working cleanup exchanges exactly one volume and one container if and only if the world was tidy and else leaves the old volume behind, is safe if and only if the volume was saved or the world was not tidy, and leaves a tidy world if and only if the last inspection succeeded; until the last step the row says restoring; whatever the cleanup did, the row, every container and every volume after a commit and after a rollback are stated exactly; whether one server at most is left on the data is decided exactly, and none shares it at any step if and only if the restore is solo |
| `Restore.Host.Serve` | internal/provision/restore.go:46-55 | one operation under the mutex that may die after any of its steps leaves a safe world, and every world it logged is safe; if the operation is solo, no two servers share the data in any of them |
| `Restore.Host.ServeAll` | internal/provision/restore.go:39-185 | along any mutex-serialised sequence of restores and flips, dying anywhere and starting over, the row's volume exists after every step, and holds a complete cluster as long as no two servers have shared the instance's data |
| `Restore.Host.RestoreThenFlip` | internal/provision/visibility.go:84-110 | a restore and then a flip with every write, stop and removal working: the instance runs afterwards, and two servers run on its data if and only if the restore's last inspection failed, the other one being the restored container the row does not name |
| `Restore.SoloIsOne` | internal/provision/restore.go:39-185 | a solo restore ends with one server at most; one that began with one and is not solo ends with two |
| `Restore.RestartServers` | internal/provision/restore.go:173-185 | a rollback's restart keeps one server at most if and only if it does not start the original beside another one |
| `Restore.UndoServers` | internal/provision/restore.go:173-185 | whatever its cleanup leaves behind, a rollback leaves the servers the original world would have after a restart |
| `Restore.FlipServers` | internal/provision/visibility.go:84-162 | a flip leaves one server at most if and only if it starts a container and nothing else was left running on the data, or starts none and one at most was left |
| `Restore.Host.RestoreTwice` | internal/provision/restore.go:153-165 | two restores of a tidy instance with every write and removal working: the second leaves the first one's container and volume behind if and only if the first one's last inspection failed |
| `Restore.Host.ServeAllTidy` | internal/provision/restore.go:39-185 | along any run without deaths in which the last inspections, the column writes and the removals work, the world stays tidy, the instance's volume is the only one ever exchanged, and after every step it holds a complete cluster with one server at most on it |
| `Restore.Host.RollBack` | internal/provision/restore.go:173-185 | the rollback computes the undone world, and each of its steps is safe |
| `Restore.Host.RunHelper` | internal/provision/restore.go:194-275 | run only once the original has been stopped (if stopping worked), the one-shot container changes nothing but the staging volume, which is complete when it reports success |
| `Restore.Host.Commit` | internal/provision/restore.go:153-165 | the four commit steps stay safe if the volume is saved; with working cleanup they swap exactly one volume and one container if and only if the world was tidy, and else leak the old volume |
| `Restore.Host.Flip` | internal/provision/visibility.go:27-162 | through every failure and its recovery a flip touches no volume and stays safe; an instance that is not standalone or neither running nor stopped is not changed at all, a stopped one gets the flag and nothing else, and only a running one with a recorded container and a readable password has its container exchanged, with every container and column stated; one whose replacement starts exchanges exactly the container and the flag; one whose replacement fails puts the flag back and ends running if and only if the replacement was never created, the name is free and recovery works, and else stopped, never in error; a row left running names a running container on the instance's data; the world stays tidy if and only if no container was created or the removal freed the volume; no two servers share the data at any step if and only if none did before and, if a container is started, nothing that was left runs on the data |
| `Restore.Host.Recover` | internal/provision/visibility.go:132-162 | recovery from a failed flip restores the flag, keeps every volume, and ends Running if and only if no container holds the instance's name and creating and starting work |
| `Restore.CommitAnyway` | internal/provision/restore.go:153-165 | for every staged world and every outcome of the cleanup: the id and volume the row names, what became of each container and each volume, and the new container running on the complete new volume |
| `Restore.UndoAnyway` | internal/provision/restore.go:173-185 | for every staged world and every outcome of the cleanup: all original volumes and containers are there as they were, the recorded container running if it could be started again or never was stopped, and leftovers hold neither the name nor an original volume |
| `Restore.FlipIs` | internal/provision/visibility.go:27-162 | an admitted flip changes the flag alone for a stopped instance, and for a running one exchanges the container column by column |
| `Restore.UndoRestores` | internal/provision/restore.go:173-185 | rolling back from any staged world restores the volumes and the containers, and restarts the original |
| `Restore.CommitSwaps` | internal/provision/restore.go:153-165 | for every staged world with working cleanup: swapped if and only if tidy, leaked if and only if not, safe if and only if the volume was saved or the world was not tidy, tidy afterwards if and only if the last inspection succeeded |
| `Restore.FlipTidy` | internal/provision/visibility.go:89-110 | a flip that creates a container leaves a tidy world if and only if the removal freed the volume; one that creates none leaves it as tidy as it was |
| `Transfers.VerifyAlwaysPasses` | cmd/loadgen/main.go:342-481 | for any workers, interleaving, aborts and event churn, verify reports no drift, no negative balance and no orphan event |
| `Transfers.TransferExactly` | cmd/loadgen/main.go:342-391 | in every reachable state, the step in which a transfer runs to its end makes exactly that transfer with its two events if the committed balance covers it and leaves both tables alone otherwise, and no other step of a transfer and no abort changes a table |
| `Transfers.TransferCompletes` | cmd/loadgen/main.go:342-391 | from every reachable state a transfer nobody hinders runs to its end in at most seven statements, and has then moved its amount if and only if the committed balance covered it |
| `Transfers.BeginsExactly` | cmd/loadgen/main.go:342-350 | a transfer begins exactly between two different seeded accounts for 1 to 100, for a worker without one |
| `Transfers.AbortExactly` | cmd/loadgen/main.go:350-391 | an abort gives up the transfer and its locks and changes neither table |
| `Transfers.ChurnExactly` | cmd/loadgen/main.go:393-417 | in every reachable state an insert adds one row under an unused id, an update and a delete change exactly the rows they picked |
| `Transfers.AllOrNothing` | cmd/loadgen/main.go:342-391 | the account table changes only at a commit, by exactly one covered debit and credit, together with its two events |
| `Transfers.NoCycle` | cmd/loadgen/main.go:350-369 | in every reachable state the wait-for graph of account locks has no cycle |
| `Transfers.SomeoneCanStep` | cmd/loadgen/main.go:350-385 | while a transfer is unfinished, some unfinished transfer's next statement takes effect |
| `Transfers.CommitConserves` | cmd/loadgen/main.go:370-385 | a covered transfer keeps the sum, non-negativity and the set of accounts |
| `Transfers.CommitDisturbsNobody` | cmd/loadgen/main.go:350-385 | a commit leaves every other open transaction's reads valid |
| `Transfers.RunKeeps` | cmd/loadgen/main.go:316-417 | exclusive locks, valid reads and intact tables hold after every run |
| `Transfers.CopyAccounts` | cmd/loadgen/main.go:224-240 | seeding creates accounts 1..n at the start balance, whose sum is n times that balance |
| `Catalog.FindStanza` | internal/backup/backup.go:207-216 | the loop finds the last reported stanza of that name, and none exactly when there is none |
| `Catalog.Refresh` | internal/backup/backup.go:217-244 | the sync succeeds exactly when the stanza is found and usable and every write works, and then the instance's rows equal the listing label for label; other instances' rows stay; on error no row is removed and the rows are the old ones with what was upserted written over them |
| `Catalog.SuccessIsEarned` | internal/backup/backup.go:102-244 | along every run, an operation has succeeded exactly after a command that reported ok, a usable report, one working upsert for each listed backup and a working prune, in this order, and has failed exactly after a first call that failed |
| `Catalog.OutcomeExactly` | internal/backup/backup.go:134-244 | an operation that holds its lock and makes its calls, whatever other threads do in between, has succeeded if and only if all of them worked, and failed otherwise |
| `Catalog.CommandWrites` | internal/backup/backup.go:125-136 | the command changes its own instance's repository, whatever it reports, and no other |
| `Catalog.ReleaseLetsIn` | internal/backup/backup.go:327-336 | in every reachable state an ended operation keeps a waiting one of its instance out until it releases the lock, and the waiting one can then take it |
| `Catalog.UpsertAll` | internal/backup/backup.go:233-239 | the loop brings every listed backup into the table and collects exactly its labels, stops at the first error, and removes nothing |
| `Catalog.CatalogAgrees` | internal/backup/backup.go:102-272 | under every interleaving through the per-instance locks, a successful operation has left its instance's rows equal to its listing; if healthy reports are exact, also to the repository when the stanza was healthy, until the next change of that repository |
| `Catalog.OnlySuccessRemoves` | internal/backup/backup.go:230-242 | a row disappears only in a successful sync of its own instance whose listing lacks it |
| `Catalog.StepsOnOwnRows` | internal/backup/backup.go:217-244 | a step changes rows of the instance its thread is syncing, and no others |
| `Catalog.SyncRows` | internal/backup/backup.go:217-244 | at every point of a sync, whatever other threads do in between, the instance's rows are those `Refresh` leaves when the next upsert fails |
| `Catalog.PruneAgrees` | internal/backup/catalog.go:54-66 | upserting a listing and pruning to its labels makes the rows equal to it and leaves other instances alone |
| `Catalog.OneHolder` | internal/backup/backup.go:327-336 | in every reachable state no two operations hold the lock of one instance |
| `Catalog.UnhealthyListingHidesBackups` | internal/backup/backup.go:211-242 | from every start and for every instance, repository contents and unhealthy non-empty report that lacks one of its backups, there is a run in which the operation succeeds and that backup has lost its row |
| `Alerts.Store.Sync` | internal/alerts/store.go:39-147 | a committed Sync makes the firing kinds exactly the findings' kinds, shows the last finding of each, returns exactly the difference as transitions, one per kind, each firing one with severity and message of the first finding of its kind, in the order of the findings, each resolved one with those of the row that was firing; every row afterwards is stated, resolved rows and other instances unchanged; a failed one changes nothing |
| `Alerts.Store.SyncAll` | internal/alerts/store.go:39-147 | over any run of Syncs, failed ones included, one firing row per instance and kind, resolved rows never change, and replaying the transitions rebuilds the firing set |
| `Alerts.Fire` | internal/alerts/store.go:51-100 | the first loop fires exactly the findings' kinds and reports each newly firing kind once even when findings repeat, with the first finding's severity and message |
| `Alerts.Stale` | internal/alerts/store.go:102-126 | the second loop collects exactly the firing kinds that were not found, each once |
| `Alerts.Clear` | internal/alerts/store.go:128-146 | the third loop resolves exactly the stale kinds and reports each once, with the severity and message of its row |
| `Alerts.HistoryAlternates` | internal/alerts/store.go:39-147 | in every history each kind's transitions strictly alternate and the last one says whether it fires |
| `Alerts.SyncReplays` | internal/alerts/store.go:39-147 | one Sync's transitions, replayed on the firing set before it, give the one after it |
| `Redact.RedactKeys` | internal/provision/provision.go:421-447 | on every input the loops terminate and compute the line-wise specification: each line is cut right after its earliest marker and masked, other lines are unchanged |
| `Redact.CutAt` | internal/provision/provision.go:421-447 | a line with a marker keeps everything up to the end of its earliest marker, the marker included, and then has the mask |
| `Redact.CutClean` | internal/provision/provision.go:421-447 | a line without a marker stays as it is |
| `Redact.RedactedLine` | internal/provision/provision.go:421-447 | the lines of a text are cut one by one and keep their newlines |
| `Redact.Scrub` | internal/provision/provision.go:423-445 | the inner loop does this for one key |
| `Redact.RedactBoth` | internal/backup/backup.go:374-397 | the copy with the other key order computes the same result on every input |
| `Redact.RedactedTwice` | internal/provision/provision.go:421-447 | redacting for some keys and then for others is redacting for all of them, in any order |
| `Redact.Idempotent` | internal/provision/provision.go:421-447 | redacting twice is redacting once |
| `Redact.NothingLeaks` | internal/provision/provision.go:417-447 | in redacted text every marker is followed by the mask and then by the end of its line |
| `Shell.ShellJoin` | internal/provision/restore.go:324-330 | the shell's words of the joined line are exactly the arguments |
| `Shell.RoundTrip` | internal/provision/restore.go:324-330 | for every list of strings, empty ones and ones full of quotes included, tokenising the quoted line gives the list back |
| `Shell.Injective` | internal/provision/restore.go:324-330 | different argument lists give different lines |
| `Scheduler.SingleFlight` | internal/scheduler/scheduler.go:78-129 | under every interleaving a job has at most one live goroutine, so it never overlaps itself |
| `Scheduler.StoppedMeansQuiet` | internal/scheduler/scheduler.go:99-110 | while no batch is recorded no goroutine is alive and the wait group is at zero |
| `Scheduler.StopReturns` | internal/scheduler/scheduler.go:99-110 | when Stop returns, no batch is recorded and no job is alive |
| `Scheduler.StartLaunchesAll` | internal/scheduler/scheduler.go:78-94 | a Start that returns has launched every registered job exactly once, in order |
| `Scheduler.RelaunchIsNew` | internal/scheduler/scheduler.go:96-110 | a Start after Stop begins a new batch over all jobs |
| `Scheduler.RunsUntilCancelled` | internal/scheduler/scheduler.go:85-129 | in every reachable state each launched job of a batch that was not cancelled has its goroutine, and none of those is on its way out |
| `Scheduler.RunsAgain` | internal/scheduler/scheduler.go:112-129 | a launched job of a batch that was not cancelled can run to its end any number of times more |
| `Scheduler.StartCanReturn` | internal/scheduler/scheduler.go:78-94 | from inside Start the caller's own steps, at most two per job and one more, bring it to its return with a goroutine alive for every job it launched |
| `Scheduler.FreeCaller` | internal/scheduler/scheduler.go:70-110 | a free caller registers one job more, starts nothing while a batch is recorded, and stops with the recorded batch; a cancelled parent context cancels its batch |
| `Scheduler.StopCancels` | internal/scheduler/scheduler.go:99-110 | Stop cancels the recorded batch and waits exactly until no goroutine is left |
| `Scheduler.StopCanReturn` | internal/scheduler/scheduler.go:99-129 | from every reachable state in which Stop waits, at most three steps per live goroutine and two of the caller lead to its return with no goroutine alive |
| `Scheduler.LeavesSoon` | internal/scheduler/scheduler.go:112-129 | a live goroutine of a cancelled batch leaves within three steps, each bringing it closer |
| `Async.CounterIsOutstanding` | internal/api/async.go:29-55 | the wait-group counter is accepted minus finished tasks |
| `Async.RunsExactlyOnce` | internal/api/async.go:29-55 | each Go is dropped and never runs, or accepted and runs exactly once by the time it is done, panics included |
| `Async.AcceptedWhileOpen` | internal/api/async.go:29-47 | in every reachable state new work is accepted, and alive, if and only if nobody has called Wait, and dropped otherwise |
| `Async.FinishesSoon` | internal/api/async.go:48-52 | an accepted task is finished, by return or by panic, after at most three steps of its own that change no other |
| `Async.WaitCanDrain` | internal/api/async.go:57-70 | from every reachable state a blocked Wait can return drained, after at most three steps per live task and one of its own |
| `Async.WaitReturns` | internal/api/async.go:57-70 | a Wait closes the tracker and blocks, can time out at any moment, and drains if and only if every accepted task has finished |
| `Async.ReturnedForGood` | internal/api/async.go:57-70 | what a Wait returned does not change, whatever follows |
| `Async.ClosedOnlyDrains` | internal/api/async.go:57-70 | once a Wait has closed the tracker nothing is accepted and the counter never rises, whatever follows |
| `Async.DrainedMeansFinished` | internal/api/async.go:57-70 | a Wait that returned without timing out implies that every accepted task has finished, then and ever after |
| `Hub.NeverPanics` | internal/ws/hub.go:30-60 | under every interleaving no event is sent on a closed channel |
| `Hub.Delivery` | internal/ws/hub.go:30-60 | a subscriber is offered every event published while subscribed, in order; it receives a prefix of what was sent; and an offer is refused exactly when 64 events are waiting |
| `Hub.PublishReaches` | internal/ws/hub.go:50-60 | from every reachable state with the mutex free, a Publish takes one step per subscribed channel and two more, whatever subscribers do: each channel subscribed at that moment has the event at the end of its buffer, or dropped if 64 were waiting, and no other channel is touched |
| `Hub.TakesOldest` | internal/ws/hub.go:30-47 | a subscriber takes the oldest waiting event, also while a Publish runs, and nothing if none waits |
| `Hub.ComesAndGoes` | internal/ws/hub.go:30-47 | with the mutex free a new channel is subscribed and empty, a cancel takes it out once and leaves its buffer, and exactly a cancelled channel can be closed |
| `Hub.ReceivedInOrder` | internal/ws/hub.go:50-60 | what a subscriber received is a subsequence, in publish order, of what was published while it was subscribed |
| `Hub.LeftForGood` | internal/ws/hub.go:36-46 | after an unsubscribe nothing more is offered, whatever follows |

## Left out

- Web UI, HTTP handlers, WebSocket upgrade, JSON codecs, authentication, RBAC, metrics, health parsing, compose generation, configuration validation: presentation and plumbing; what they compute has no state or protocol to reason about.
- Docker, S3, pgx, migrations, pg_dump, pg_restore and pgBackRest internals, and the bash text of the restore and base-backup scripts: nondeterministic calls that succeed or fail.
- Timeouts and wall clocks: a "gave up" outcome of the call or step.
- Interleavings inside four failover steps: demoting, crowning, saving the primary id and waiting for streaming each make two adjacent meta-database writes or an inspection and a write, taken as one step.
- Log contents in the protocol: the election chooses by reported positions; `CandidateLosesNothing` takes the histories as given.
- Replication slots, slot names and cluster destruction: best effort in the source, no bearing on the properties.
- Several clusters in one failover protocol: clusters share no rows or containers; the pass over several is in `FailoverPass`.
- Agreement of the public flag with the container's binding: flips are modelled for their effect on containers and volumes.
- The exported, unlocked Sync of the backup service: it takes no instance lock, so it is not one of the concurrent catalog operations.
- Restore.Host.Restore: status writes are taken to succeed, the write of the container id is taken to succeed when the last inspection does, and port refreshes are not modelled.
- Restore.Host.ServeAll: what two servers do to a data directory they share is not modelled, so nothing is claimed about its contents from then on; containers start only when they are told to, restarts by Docker's own policy are not modelled.
- FailoverSafety.RunningMeansAgreement: full agreement is false of the code; the row and the three runs say exactly when each part fails.
- Transfers.VerifyAlwaysPasses: sums are unbounded integers, so an overflow of the 64-bit pot is not modelled; event updates and deletes may hit any set of rows, which includes what the statements do.
- Catalog.CatalogAgrees: one operation stands for Run, Delete and Expire, which differ in the command they execute; the listing's columns are one value per label.
- ClusterSetup.Service.Provision: the row writes of a member that comes up are taken to succeed, since their failure makes the source report the member as failed.
- Failover, transfer, catalog, scheduler, async and hub runs are modelled on values rather than as classes, because their subject is the interleaving of several parties; aliasing plays no part in them.
- Async on a nil receiver and concurrent Stop calls of the scheduler: test wiring and outside the intended use.
- Shell.RoundTrip: words are sequences of characters; expansions, operators and line continuations make the tokeniser refuse a line, since quoted output never contains them unquoted.
