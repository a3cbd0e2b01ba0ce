# union-csi-driver in Dafny

The driver mounts unions of a pod's volumes: it reads attributes off the pod, finds the
node-local directories of the sources, starts a mergerfs daemon or mounts an overlay, and
keeps daemons repaired. `dafny verify dfyconfig.toml` checks the whole project.

**Symlink resolution below a root** (`Text`, `Paths`, `HostPolicy`, `Resolution`). A tree
maps lists of names to a directory, a file or a symlink. `Walk` resolves a path recursively,
the way POSIX describes it; the worklist loop of `RealPath` is proved to compute the same,
and the host path policy to mean what it says on directories rather than strings.

**Supervision** (`Stale`, `MountInfo`, `BranchRepair`, `Supervision*`, `Late*`,
`SharedRuns`, `SharedChains`, `ChainedPass`, `MergerfsBackend`). The protocol is a machine
whose steps are single effects, so that the driver may die between any two of them, and
whose effects may fail. Safety is an invariant of every step; write-ahead, "never touch what
answers", "no resurrection", the life of a daemon's command line and the third-sighting rule
hold over whole runs. `MergerfsBackend.Backend` is the backend as the object it is: each
method is proved to be a run of that machine.

**Sharing** (`Pods`, `Sharing`, `Resolver`, `Publishing`, `NodeServer`). Each volume of a
pod decides alone whether it mounts or is a view; the decisions agree, and together with the
supervision protocol they never chain views while they stand. `NodeServer` puts publish and
unpublish on top of the backend.

**Configuration** (`Params`, `Policy`, `Schemas`, `Escapes`, `Argv`, `Overlay*`,
`Admission*`). Attributes are parsed, overlaid by the policy and written as a command line
or as overlay layers, and read back. The admission policy is a function from pods to pods.

Where code and comments disagree the model follows the code:

- `pkg/backend/mergerfs/mount_linux.go:55-57` says the reconcile loop repairs a crash between
  saving a record and starting the daemon. The target is then a plain directory, which
  `reconcile_linux.go:75-82` leaves alone (`CrashBeforeStart`, `StaysUnmounted`); a republish
  repairs it. The same goes for a remount that fails behind its unmount
  (`FailedRemountStays`). What a reconcile does repair is said exactly by
  `ReconcileRepairsIff`: what is still a mount.
- `reconcile_linux.go:15-16` says that shared views come last so that they bind to unions
  the pass has just remounted. A view of a view need not come after the view it is of, and is
  then left dead until the next pass (`OnePassIsNotEnough`); `OnePassConverges` says exactly
  when one pass is enough.
- `reconcile_linux.go:59-60` says that a serving daemon is never stopped. So it is while
  publishes begin on time (`RunNeverDisturbs`); after one that began late it can be stopped
  (`LateReconcileDisturbs`, and the exact steps in `LateDisturbsIff`).
- If a seal fails during a publish and so does the unmount that undoes it, a dead mount is left
  without a record (`FailedUndoOrphans`). `WriteAhead` says exactly when that is so.
- `pkg/backend/mergerfs/stale.go:69-71` says that the mount table can be compared as it is. The
  sandbox paths can; but a branch whose directory on the host has a Unicode blank in its name
  moves the fields of its line (`MountedBranchIsMissed`, `LostBranchIsFound`, and the exact
  condition in `JudgedRightIff`).
- `charts/union-csi-driver/templates/mutatingadmissionpolicy.yaml` says that a source nothing
  mounts would never appear and mounts each one. It does so for unions that were mounted
  before the patch; a union that only the patch mounts is not looked at again
  (`NestedUnionStaysOpen`, and the exact condition in `AdmissionCloses`).
- `pkg/volsource/resolve.go:299-300` calls the containment assertion an invariant of validated
  inputs. With "/" as the host path mount directory it refuses every host path but "/"
  (`ContainedIff`, `EscapesIff`).
- `pkg/volsource/resolve.go:158-161` guards against mount cycles by the driver of an inline
  volume, which a claim hides (`ClaimedUnionIsASource`, `SourceIsAUnionIff`).

What the model takes as given:

- Paths handled by `Paths` are absolute, as the kubelet root, targets and roots are; the
  empty root that switches resolution off is kept.
- The API server keeps volume names and pod uids usable as directory names and distinct;
  kubelet serialises the publishes of one volume and gives each its own target.
- Volume ids stay distinct as unit and file names. The supervisor runs one daemon per id, and
  a start or bind that fails leaves nothing of its own mounted.
- In `Supervision` and on top of it a publish finds out whether something is mounted and takes
  the lock in one step. The code looks before it locks; `LatePublish` says what becomes of
  write-ahead and of what answers then. There, a mount over a mount hides it until it is
  unmounted, and a daemon that runs keeps a second one of its volume from starting over it.
- Waiting for the source of a view and binding it is one step, since neither holds a lock that
  would keep the source as it is.
- What a volume decides to share can change within a run: the volumes of a pod are fixed, but
  an ephemeral container added to a running pod can make kubelet set up another volume with
  the same declaration, earlier in the pod (`DecisionChangesIff`). `SharedChains` says exactly
  when a view of a view arises then, and what views show until one does; `SharedRuns` is about
  runs in which decisions stay.
- Everything outside the driver that can fail does so by a parameter: an `Outcome`, a
  `Sight`, a `Lookup`.

## Model

| member | source | states |
|---|---|---|
| `Resolution.RealPath` | `pkg/volsource/resolve.go:316-369` | The worklist loop returns, on every tree and every path, failures included, what the recursive pathname walk with the root as "/" returns; it always ends, by the measure (links left, worklist length) |
| `Resolution.WalkAppend` | `pkg/volsource/resolve.go:329-361` | Resolving a list of names and then another is resolving their concatenation, with the link counts adding up; this is what lets the loop splice a link's target into its worklist |
| `Resolution.RealPathFollowsPosix` | `pkg/volsource/realpath_fuzz_test.go:15-18` | Without a host path policy, whenever POSIX resolution (section 4.13 of POSIX.1-2017) with the root as "/" succeeds within 40 links, RealPath returns exactly that place |
| `Resolution.StrictImpliesLenient` | `pkg/volsource/resolve.go:334-337` | A walk that POSIX allows ends in the same place, with the same link count, for the loop, which never checks what it leaves through ".." |
| `Resolution.AgreesOnPathIff` | `pkg/volsource/resolve.go:334-337` | Loop and POSIX agree on a path, failures included, if and only if the loop leaves no regular file through an empty element, "." or ".." on its way |
| `Resolution.StrictUnlessLeavingAFile` | `pkg/volsource/resolve.go:334-337` | Where it does, POSIX refuses the path for just that |
| `Resolution.AgreesWithPosixIff` | `pkg/volsource/resolve.go:334-337` | They agree on every worklist if and only if the tree holds no regular file |
| `Resolution.LeavingAFile` | `pkg/volsource/resolve.go:334-337` | The input that separates them: "file/.." is accepted by the loop and refused by POSIX |
| `Resolution.RealPathIsCanonical` | `pkg/volsource/resolve.go:339-368` | Whatever RealPath returns lies below its root, every step to it exists and is no symlink, and resolving it again returns it |
| `Resolution.PolicyOnlyRefuses` | `pkg/volsource/resolve.go:356-360` | With a policy a walk succeeds exactly when it succeeds without one and every link on the way points, lexically, to something reachable; nothing else changes |
| `Resolution.AcceptedHostPathIsPermitted` | `pkg/volsource/resolve.go:291-368` | Every accepted hostPath ends, after all links and "..", inside an allowed directory and outside every denied one, and is what resolution without the policy reaches |
| `Resolution.EarlyRefusalIsIncomplete` | `pkg/volsource/resolve.go:356-360` | A path that ends in the only allowed directory and is refused all the same, because a link on the way points outside it |
| `Resolution.ContainedIff` | `pkg/volsource/resolve.go:301-308` | assertContained is component-wise containment for every root but "/", below which it accepts "/" alone |
| `Paths.UnderIsPrefix` | `pkg/volsource/hostpaths.go:63-65` | On all clean absolute paths the string test is the prefix test on names, so /data does not hold /database |
| `Paths.CompsJoin` | `pkg/volsource/resolve.go:291-297` | Joining an absolute path and any string walks the string's elements from the path's, as filepath.Join does |
| `HostPolicy.CheckIsContainment` | `pkg/volsource/hostpaths.go:31-43` | A directory passes the policy exactly when it lies in an allowed directory and in no denied one |
| `HostPolicy.PermittedIsReachable` | `pkg/volsource/hostpaths.go:45-52` | The early test never refuses a permitted directory itself |
| `Pods.ReferencedVolumes` | `pkg/volsource/resolve.go:131-151` | Exactly the names that some init, main or ephemeral container mounts or has as a device |
| `Resolver.ResolveIn` | `pkg/volsource/resolve.go:89-127` | The sources of all names in their order, or what is wrong with the first name that does not resolve |
| `Resolver.ResolveName` | `pkg/volsource/resolve.go:97-124` | An answer carries the name it was asked for and is contained in its root; it is "not mounted by any container" exactly for a pod volume that no container uses |
| `Resolver.ResolveOne` | `pkg/volsource/resolve.go:153-219` | Every resolved volume lives in the pod's volumes directory, or below the host path mount with the policy attached; exactly the volumes of this driver are refused as a mount cycle |
| `Resolver.ResolveClaim` | `pkg/volsource/resolve.go:223-283` | A claim resolves only if it and its volume are there and, for a generic ephemeral volume, it is controlled by this very pod; one that is not is refused; exactly what is not there yet is to be retried, and exactly what could not be looked up fails |
| `Resolver.SourcesAreContained` | `pkg/volsource/resolve.go:299-308` | Whatever the names are, an accepted source lies below its root |
| `Resolver.SourceIsPlaced` | `pkg/volsource/resolve.go:153-283` | A source among the pod's volumes is the entry kubelet uses, in the directory of its plugin, and for a CSI volume, inline or claimed, the mount below it |
| `Resolver.EscapesIff` | `pkg/volsource/resolve.go:114-118` | The containment assertion fires on valid names if and only if the host path mount directory is "/" and the volume, or the persistent volume it is bound to, is a permitted host path other than "/" |
| `Resolver.AllowedHostPathEscapes` | `pkg/volsource/resolve.go:299-308` | A pod for which it does |
| `Resolver.SourceIsAUnionIff` | `pkg/volsource/resolve.go:158-161` | The directory of a source among the pod's volumes is the target of a union of this driver if and only if the source is bound to a CSI persistent volume called like that union |
| `Resolver.HostSourceIsAUnionIff` | `pkg/volsource/resolve.go:291-297` | A host path source is such a target if and only if the host path mount shows it at that place |
| `Resolver.ClaimedUnionIsASource` | `pkg/volsource/resolve.go:254-260` | The pod and cluster for which the cycle guard does not see it |
| `Supervision.StepIsTame` | `pkg/backend/mergerfs/mount_linux.go:45-86` | A record changes only by a save or goes; counters change only where they are used; a mount leaks only when undoing a seal fails |
| `SupervisionSafety.StepKeepsInv` | `pkg/backend/mergerfs/reconcile_linux.go:32-114` | Every step of every operation, and every step of the environment, keeps the invariant that ties records, mounts, daemons and running operations together |
| `SupervisionRuns.StepOrphansIff` | `pkg/backend/mergerfs/mount_linux.go:62-65` | A step leaves a mount without its record if and only if it rolls a publish back under that mount, or the record was missing before and the step does not clear the mount away |
| `SupervisionRuns.WriteAhead` | `pkg/backend/mergerfs/mount_linux.go:55-64` | At the end of every run the stored record describes the mount at a target if and only if no rollback took it away under the mount without the mount being cleared away since; a mount without its record never answers |
| `SupervisionRuns.NoOrphanWithoutFailedUndo` | `pkg/backend/mergerfs/mount_linux.go:111-116` | That takes an unmount that fails while a seal is undone |
| `LatePublish.WriteAheadIff` | `pkg/backend/mergerfs/mount_linux.go:45-86` | With publishes that begin over a mount made since they looked, and mounts over mounts: the stored record describes the uppermost mount at a target if and only if no step took the record from it, by removing it, saving another one or bringing up a hidden mount of another record, without that being settled since |
| `LatePublish.StepGoesWell` | `pkg/backend/mergerfs/mount_linux.go:45-86` | The same for each step, and what operations rely on all the while |
| `LatePublish.StepKeepsLateInv` | `pkg/backend/mergerfs/reconcile_linux.go:32-114` | Every step, mounting over a mount included, keeps what each operation relies on, and no mount is of a process yet to start |
| `LatePublish.OnTimeRuns` | `pkg/driver/node.go:46-57` | Runs without late publishes are the runs of the protocol |
| `LateServing.LatePublishOrphansTheLiving` | `pkg/driver/node.go:46-57` | The run in which a publish looks between the unmount and the start of a reconcile, fails to start, and leaves a serving union without its record |
| `LateServing.LateShareStacks` | `pkg/driver/node.go:141-175` | The run in which a view is bound over itself, and the unpublish removes the record and leaves the lower mount serving |
| `LateServing.LateNoResurrection` | `pkg/backend/mergerfs/reconcile_linux.go:37-43` | However late publishes begin: once a volume has no record and no mount, nothing mounts its target until a record of it is saved |
| `LateServing.LateDetachesOnlyTheDead` | `pkg/backend/mergerfs/reconcile_linux.go:84-114` | However late publishes begin: a reconcile takes a mount down only while it is dead |
| `LateServing.LateDisturbsIff` | `pkg/backend/mergerfs/reconcile_linux.go:54-114` | However late publishes begin: a step of a reconcile disturbs what answers if and only if it stops the process behind it or mounts over it something else |
| `LateStops.LateReconcileDisturbs` | `pkg/backend/mergerfs/reconcile_linux.go:84-97` | The run in which one does: what it saw dead was the view of another daemon, and the daemon it stops by name serves a view |
| `SupervisionRuns.FailedUndoOrphans` | `pkg/backend/mergerfs/mount_linux.go:111-116` | The run from an empty node that leaves a mount without a record |
| `SupervisionServing.ReconcileNeverDisturbs` | `pkg/backend/mergerfs/reconcile_linux.go:32-114` | No step of a reconcile unmounts, stops or replaces what answers or hangs, at any target but that of its own fresh mount that it could not seal |
| `SupervisionServing.StepKeepsPrivate` | `pkg/backend/mergerfs/mount_linux.go:104-118` | A mount that is not sealed yet is shown nowhere else, so taking it down again cuts nobody off |
| `SupervisionServing.RunNeverDisturbs` | `pkg/backend/mergerfs/reconcile_linux.go:32-114` | The same after any run from an empty node |
| `SupervisionServing.ReconcileDetachesOnlyTheDead` | `pkg/backend/mergerfs/reconcile_linux.go:85-110` | A reconcile unmounts only what is dead at that moment |
| `SupervisionServing.ReconcileStopsOnlyTheCutOff` | `pkg/backend/mergerfs/reconcile_linux.go:91-94` | The process that the stop before a remount finds, if any, is cut off and serves no mount any more |
| `SupervisionServing.ReconcileStartReplacesNothing` | `pkg/backend/mergerfs/reconcile_linux.go:95-97` | A remount starts its daemon where nothing is mounted, for the volume whose record is stored |
| `SupervisionRemounts.ReconcileMountsOnlyWhatItSawDead` | `pkg/backend/mergerfs/reconcile_linux.go:54-75` | In every run, a step of a reconcile mounts only at the target of its volume, and only if this same reconcile saw a dead mount there and has held the lock since |
| `SupervisionRemounts.StaysUnmounted` | `pkg/backend/mergerfs/reconcile_linux.go:75-82` | A target that is not mounted, and that nobody is about to mount, stays so over every run until its next publish, whether or not there is a record |
| `SupervisionRemounts.ReconcileKeepsMounted` | `pkg/backend/mergerfs/reconcile_linux.go:54-75` | A reconcile whose operations succeed leaves exactly the same targets mounted |
| `SupervisionRemounts.ReconcileRepairsIff` | `pkg/backend/mergerfs/reconcile_linux.go:54-75` | After it a recorded union answers if and only if its target was mounted, dead or alive, and a view if and only if it was mounted and answered or its source serves |
| `SupervisionRemounts.CrashBeforeStart` | `pkg/backend/mergerfs/mount_linux.go:55-64` | The run in which the driver dies between saving and starting: the record stays and no reconcile mounts it |
| `SupervisionRemounts.FailedRemountStays` | `pkg/backend/mergerfs/reconcile_linux.go:85-98` | The run in which a remount fails behind its unmount: likewise |
| `SupervisionRuns.UnpublishEnds` | `pkg/backend/mergerfs/mount_linux.go:200-212` | A successful unpublish leaves neither record nor mount |
| `SupervisionRuns.NoResurrection` | `pkg/backend/mergerfs/reconcile_linux.go:32-40` | From then on no step mounts the target, however old the id list of the pass, until the next publish has saved a record |
| `SupervisionRuns.RecordIsStable` | `pkg/backend/mergerfs/state.go:14-26` | Between publishes a record is never rewritten |
| `SupervisionRuns.DaemonRunsAsPublished` | `pkg/backend/mergerfs/state.go:14-26` | After any crashes, remounts, repairs and restarts, a mount that answers at the target of a union is of the process running for it, which has the command line, the branch order and the read-only flags of its publish; a failed replacement can only lose a branch |
| `SupervisionRuns.RunFollowsCounter` | `pkg/backend/mergerfs/probe_linux.go:54-95` | The stale counters of a run are the replay of its own history |
| `SupervisionRuns.ReplacedOnThirdSighting` | `pkg/backend/mergerfs/probe_linux.go:72-94` | A branch is replaced exactly when it is stale in the daemon and live on the host for at least the third time in an unbroken row under one pid |
| `SupervisionRuns.TurnTouchesOneBranch` | `pkg/backend/mergerfs/probe_linux.go:54-95` | Looking at a branch changes no other branch and no other daemon, and that branch only when a replacement is attempted |
| `SupervisionConvergence.SharedLastIsSorted` | `pkg/backend/mergerfs/reconcile_linux.go:19-19` | The pass order is a permutation with every union before every view |
| `SupervisionConvergence.SharedLastIsStable` | `pkg/backend/mergerfs/reconcile_linux.go:19-19` | Unions keep their order among themselves, and so do views |
| `SupervisionConvergence.ReconcileEffect` | `pkg/backend/mergerfs/reconcile_linux.go:32-114` | What one reconcile whose operations all succeed does to the whole state, by what the probe saw |
| `SupervisionConvergence.OthersKeepAnswering` | `pkg/backend/mergerfs/reconcile_linux.go:32-114` | It leaves the mount and the answer of every other target as they are |
| `SupervisionPasses.PassServesIff` | `pkg/backend/mergerfs/reconcile_linux.go:17-28` | Whatever is stored: after one pass whose operations succeed, what is mounted at a target serves exactly if the state it began in says so, by following the sources of its views in the order of the visits |
| `SupervisionPasses.UnionsServeAgain` | `pkg/backend/mergerfs/reconcile_linux.go:17-28` | Whatever is stored, every dead union serves again, sealed |
| `SupervisionPasses.LeftToRepairIff` | `pkg/backend/mergerfs/reconcile_linux.go:17-28` | A volume is left to repair exactly if it is a dead view that comes too early: its source does not serve yet, is visited only later, and will serve then |
| `SupervisionPasses.OnePassConverges` | `pkg/backend/mergerfs/reconcile_linux.go:17-28` | One pass leaves nothing to repair if and only if no dead view comes too early in it |
| `SupervisionPasses.ShortChainsConverge` | `pkg/backend/mergerfs/reconcile_linux.go:17-28` | So it leaves nothing to repair where views are shared from unions |
| `ChainedPass.OnePassIsNotEnough` | `pkg/backend/mergerfs/reconcile_linux.go:17-28` | The run from the empty node and the pass that leaves work: a view of a view, visited before the view it is of, stays dead although its source serves again |
| `SupervisionConvergence.SecondPassIsIdle` | `pkg/backend/mergerfs/reconcile_linux.go:54-114` | A second pass with nothing in between unmounts, starts and binds nothing |
| `Stale.CounterIsStreak` | `pkg/backend/mergerfs/stale.go:17-59` | The counter of a branch is always the length of the longest suffix of its history that is stale sightings under one pid; clears, dropped volumes and a new pid end it |
| `Stale.StaleCounter.HitBranch` | `pkg/backend/mergerfs/stale.go:32-42` | Returns that length and leaves the histories of all other branches alone |
| `Stale.StaleCounter.ClearBranch` | `pkg/backend/mergerfs/stale.go:44-47` | Ends the run of one branch and no other |
| `Stale.StaleCounter.RetainVolumes` | `pkg/backend/mergerfs/stale.go:49-59` | Ends the runs of volumes that are gone |
| `MountInfo.MountPoints` | `pkg/backend/mergerfs/stale.go:72-82` | Exactly the fifth fields, between Unicode blanks, of the lines that have one |
| `MountInfo.FieldsOfLine` | `pkg/backend/mergerfs/stale.go:76-78` | Splitting a line gives the fields of the words the kernel wrote, in order: a word with a blank that the kernel does not escape gives several |
| `MountInfo.Judge` | `pkg/backend/mergerfs/probe_linux.go:54-70` | A branch is judged stale exactly if it is dead or hung in the daemon or, where the mount table can be read, is not among the mount points as the code reads them |
| `MountInfo.JudgedRightIff` | `pkg/backend/mergerfs/stale.go:69-78` | That reading is right about a mount point if and only if a mounted one has an entry read as it or taken for it, and an unmounted one has none taken for it; an entry is misread for a blank in the name of what is mounted or in its point |
| `MountInfo.PlainTablesJudgeRight` | `pkg/backend/mergerfs/stale.go:69-78` | So it is right about every branch where no such name has a blank |
| `MountInfo.MountedBranchIsMissed` | `pkg/backend/mergerfs/stale.go:76-78` | A line for which a mounted branch is judged gone |
| `MountInfo.LostBranchIsFound` | `pkg/backend/mergerfs/stale.go:76-78` | A line for which a lost branch looks mounted |
| `BranchRepair.JudgementIsHonest` | `pkg/backend/mergerfs/probe_linux.go:54-70` | The judgement of a branch says what the daemon's own copies are if and only if it is dead, the table cannot be read, or it is read right |
| `BranchRepair.ReplacementDecides` | `pkg/backend/mergerfs/probe_linux.go:79-94` | A replacement that succeeds gives the daemon its branch back and ends the count; one that fails loses the branch and leaves the next sighting one to replace at |
| `BranchRepair.FailedReplacementIsRetried` | `pkg/backend/mergerfs/probe_linux.go:79-94` | After a failed replacement, whatever happens to other branches and volumes, the branch of that process is still lost at the next look, and is replaced again if the table can be read and the branch is live on the host |
| `MergerfsBackend.Backend.constructor` | `pkg/backend/mergerfs/mergerfs.go:127-151` | An empty backend is the initial state of the protocol |
| `Stale.StaleCounter.constructor` | `pkg/backend/mergerfs/stale.go:27-27` | A counter without history |
| `MergerfsBackend.Backend.MountUnion` | `pkg/backend/mergerfs/mount_linux.go:45-67` | Is a run of the protocol; success means a serving daemon and a record that describes the request; failure leaves nothing mounted and no record if the undo steps succeed |
| `MergerfsBackend.Backend.ShareUnion` | `pkg/backend/mergerfs/mount_linux.go:71-86` | Is a run; succeeds exactly if the source serves and saving and binding do, and then there is a view of the source's daemon and its record; failure mounts nothing |
| `MergerfsBackend.Backend.StartDaemon` | `pkg/backend/mergerfs/mount_linux.go:89-120` | A started daemon is sealed before it counts as started; otherwise its mount is taken down again |
| `MergerfsBackend.Backend.UnmountUnion` | `pkg/backend/mergerfs/mount_linux.go:200-212` | Is a run; succeeds exactly when unmounting and removing the record do, and then neither is left; otherwise the record stays |
| `MergerfsBackend.Backend.IsServing` | `pkg/backend/mergerfs/mount_linux.go:215-218` | Live and, if control files are sealed, sealed |
| `MergerfsBackend.Backend.Reconcile` | `pkg/backend/mergerfs/reconcile_linux.go:32-83` | Is a run from one probe; with all operations succeeding it is the whole reconcile that convergence speaks of |
| `MergerfsBackend.Backend.RemountUnion` | `pkg/backend/mergerfs/reconcile_linux.go:85-98` | Is a run; when all succeeds exactly detach, stop, start and seal |
| `MergerfsBackend.Backend.RebindShared` | `pkg/backend/mergerfs/reconcile_linux.go:100-114` | Is a run; when all succeeds it unmounts and binds exactly if the source serves |
| `MergerfsBackend.Backend.RepairBranches` | `pkg/backend/mergerfs/probe_linux.go:36-96` | Is a run of branch sightings, in the order of the record, under one pid |
| `MergerfsBackend.Backend.Ids` | `pkg/backend/mergerfs/reconcile_linux.go:17-28` | Every stored volume once, unions first, and the counters of all others dropped |
| `MergerfsBackend.Backend.Pass` | `pkg/backend/mergerfs/mergerfs.go:140-160` | A pass whose operations succeed makes serve exactly what the state it began in says, all dead unions among it, and leaves nothing to repair if and only if no dead view comes too early |
| `SharedRuns.StepFollows` | `pkg/backend/mergerfs/mergerfs.go:164-180` | A run in which publishes do what the driver decides keeps every record to that decision |
| `SharedRuns.FixedDecisionsNeverChain` | `pkg/backend/mergerfs/mergerfs.go:164-180` | Runs in which decisions stay what the driver once decided make no view of a view |
| `SharedChains.StepChainsIff` | `pkg/driver/node.go:141-175` | Whatever is decided: while there is no view of a view, a step makes one if and only if it saves a view of a stored view, or a view for a volume that a stored view names |
| `SharedChains.RunChainsIff` | `pkg/driver/node.go:141-175` | A run stays without views of views throughout if and only if no save in it makes one |
| `SharedChains.SourcesAreUnions` | `pkg/backend/mergerfs/mount_linux.go:71-76` | In every run that makes no view of a view, however decisions change, the source of a view is, whenever it serves, a union's own mount |
| `SharedChains.ViewsShowTheirSource` | `pkg/driver/node.go:161-174` | In every such run a view that answers is served by the daemon of the union it is shared from, through all rebinds |
| `SharedChains.ChainArises` | `pkg/driver/node.go:141-175` | The run in which one arises: the viewed volume is published again as a view of one that has come into use since |
| `SharedRuns.DriverDecidesOneHop` | `pkg/driver/node.go:141-175` | What sharedSource decides for the volumes of any pods never makes a view of a view |
| `Sharing.SharedSource` | `pkg/driver/node.go:141-175` | The search refines its specification: the first volume, at or before the target's own, that kubelet sets up and that declares the same union |
| `Sharing.ParseUnion` | `pkg/driver/node.go:184-197` | Only volumes of this driver with attributes that parse declare a union |
| `Sharing.TargetTellsVolume` | `pkg/driver/node.go:143-148` | In kubelet's layout a target tells its volume |
| `Sharing.OneMountsForAll` | `pkg/driver/node.go:139-175` | Each class of used volumes with equal declarations has exactly one member, the first in the pod, that mounts for itself; all others name it and its target |
| `Sharing.ViewsAreOfMounts` | `pkg/driver/node.go:161-174` | Whatever target the decision is for, the volume it names is set up by kubelet, declares a union and mounts for itself: chains have length one |
| `Sharing.DecisionChangesIff` | `pkg/driver/node.go:161-174` | When more volumes of a pod come into use, what a volume decides changes if and only if one with the same declaration, before all that were in use, has come into use |
| `Sharing.ViewedBecomesView` | `pkg/driver/node.go:161-174` | The pod in which a viewed volume becomes a view |
| `Publishing.RequestDeclaresVolume` | `pkg/driver/node.go:184-197` | The request of a volume parses to the declaration that its pod spec shows to the other volumes |
| `Publishing.EqualDeclarationsMountTheSame` | `pkg/driver/node.go:177-201` | Volumes with equal declarations stand for the same mount up to id and target: sources in order, modes, options and read-only flag; and are refused together |
| `Publishing.AlikeVolumesMountTheSame` | `pkg/driver/node.go:177-201` | So do volumes whose attributes differ in the order of the options or in default modes written out; they also declare the same union |
| `Publishing.Decide` | `pkg/driver/node.go:31-111` | A mount is decided only for a well-formed request whose options pass, of the pod it names, that is no view, and is exactly what was requested; an existing mount is left alone; a request that cannot be accepted is refused as invalid, one that may be later is to be retried, and only if a source does not resolve or its path cannot be reached |
| `Publishing.Gather` | `pkg/driver/node.go:87-101` | Each source gets its real path and its declared mode, in declared order, although modes are looked up again by name; a source that may still appear is retried, another one is not |
| `NodeServer.NodePublish` | `pkg/driver/node.go:31-126` | With the look at the target and the lock in one step: ends with a daemon whose record says what was requested, or with a view of the decided source's daemon; a target already mounted changes nothing; a publish that fails leaves nothing mounted if its undo steps succeed; records keep to the decisions |
| `NodeServer.PublishShared` | `pkg/driver/node.go:203-219` | A view is recorded and shows the mount of its source's daemon |
| `NodeServer.NodeUnpublish` | `pkg/driver/node.go:223-247` | A successful unpublish leaves no record, mount or target |
| `SharedRuns.FollowersHaveShortChains` | `pkg/backend/mergerfs/reconcile_linux.go:17-19` | What the driver decides gives the order of a pass what it relies on |
| `NodeServer.RecordReadsBack` | `pkg/backend/mergerfs/argv.go:30-95` | With a validated policy the record of a published union reads back as the one mount that was requested: sources in declared order with their modes, exactly the policy's options, and ro exactly if read-only |
| `Params.ParseSourceVolumes` | `pkg/driver/params.go:82-128` | Accepts exactly lists of valid, distinct names with known modes and few enough writable ones, in the order written; otherwise names the first entry that spoils the list and how |
| `Params.SourcesRoundTrip` | `pkg/driver/params.go:82-128` | Writing a well declared list and parsing it gives the list |
| `Params.DefaultModeIsImplied` | `pkg/driver/params.go:100-103` | A bare name and the name with the default mode are the same entry |
| `Params.ParseOptions` | `pkg/driver/params.go:130-143` | The map of the pairs, split at the first "="; refused exactly if some pair has no "=" or no key |
| `Params.PairsAreTheMap` | `pkg/driver/params.go:135-141` | With distinct keys the result holds exactly the pairs |
| `Params.OptionOrderIsIrrelevant` | `pkg/driver/params.go:135-141` | The order in which options are written does not matter |
| `Params.AlikeAttributesDeclareTheSame` | `pkg/driver/params.go:56-143` | Whole attribute maps that differ only in the order of options with distinct keys and in default modes written out parse alike, or fail alike |
| `Params.ParseAttributes` | `pkg/driver/params.go:56-80` | Parses exactly if every key is known and both lists parse |
| `Policy.Resolve` | `pkg/backend/policy.go:61-88` | Succeeds exactly if every pod option passes, and then gives defaults, overlaid by the pod's options that are not denied, overlaid by the forced ones, in whatever order the maps are ranged over |
| `Policy.ResultIsSafe` | `pkg/backend/policy.go:46-88` | After validation every resulting option is valid for the backend, a denied one has the admin's value, and a forced one its forced value |
| `Policy.ValidOptionsArePlain` | `pkg/backend/policy.go:90-130` | Options valid for a schema of plain words hold no comma and no backslash, and their names no "=" |
| `Schemas.MergerfsSchemaIsPlain` | `pkg/backend/mergerfs/mergerfs.go:70-95` | The mergerfs schema is one of plain words, with and without the sandbox |
| `Schemas.OverlaySchemaIsPlain` | `pkg/backend/overlay/overlay.go:31-43` | So is the overlay schema |
| `Publishing.RequestedIsPlain` | `pkg/driver/node.go:66-109` | Every mount that parsing and policy let through has sources, modes of the grammar, and options that survive the option string |
| `Argv.BuildBranches` | `pkg/backend/mergerfs/argv.go:58-78` | Refuses exactly no sources, an unknown mode or a separator in a path, naming the first; otherwise joins path=mode in order |
| `Argv.BranchesDecode` | `pkg/backend/mergerfs/argv.go:58-78` | Splitting the branch argument at colons and then at the last "=" gives back the sources in order |
| `Argv.BuildOptions` | `pkg/backend/mergerfs/argv.go:80-95` | The -o value, whatever the order the option map is ranged over |
| `Argv.OptionsDecode` | `pkg/backend/mergerfs/argv.go:80-95` | The -o value, split at unescaped commas and without its escapes, as FUSE reads it, reads back as allow_other, ro exactly if read-only, and every option once |
| `Argv.SettingsAreTheMap` | `pkg/backend/mergerfs/argv.go:86-93` | What is read back is the option map, no more and no less |
| `Argv.Sandboxed` | `pkg/backend/mergerfs/argv.go:45-56` | Branch i keeps its place and mode behind its sandbox path and is bound read-only exactly if the volume or its own mode is |
| `Argv.BranchPathsDiffer` | `pkg/backend/mergerfs/argv.go:49-49` | Different branches get different sandbox paths |
| `Argv.BuildArgv` | `pkg/backend/mergerfs/argv.go:30-41` | The command line reads back as the request's branches, options, flag and target |
| `Argv.PlanRecord` | `pkg/backend/mergerfs/mount_linux.go:46-53` | The record to save describes the request; a sandboxed union is never refused for its paths |
| `Overlay.PlanLayout` | `pkg/backend/overlay/layout.go:37-64` | Accepts exactly read-only branches below at most one writable one that comes first, and stacks the branches in declared order; otherwise reports the first source that does not fit |
| `Overlay.LookupIsLeftmost` | `pkg/backend/overlay/layout.go:35-64` | For all contents, looking up through the upper and then the lower layers finds what the leftmost declared source has |
| `Overlay.SingleIffOneSource` | `pkg/backend/overlay/layout.go:66-78` | A bind is chosen exactly for one source and shows what the layers would have shown |
| `Overlay.MountFsconfig` | `pkg/backend/overlay/mount_linux.go:188-236` | The calls tell the kernel the layers topmost first, the writable layer and every option once |
| `OverlayClassic.MountClassic` | `pkg/backend/overlay/mount_linux.go:241-267` | The one option string, taken apart as the kernel does, says exactly what the calls of the other interface say |
| `OverlayClassic.UnescapeEscape` | `pkg/backend/overlay/mount_linux.go:276-282` | Escaping loses nothing, for every string |
| `OverlayClassic.EscapeIsSealed` | `pkg/backend/overlay/mount_linux.go:276-282` | An escaped path has no unprotected separator and no dangling backslash |
| `Escapes.SplitPlainJoin` | `pkg/backend/overlay/mount_linux.go:241-261` | Splitting at unprotected separators gives back joined fields that have none |
| `OverlayClassic.ValidOptionsAreHarmless` | `pkg/backend/overlay/overlay.go:28-43` | No option that the policy lets through names a layer or can end a field |
| `OverlayBackend.MountUnion` | `pkg/backend/overlay/mount_linux.go:17-55` | One source is bound, several are stacked in declared order over the opened directories, with the same configuration through both interfaces |
| `Admission.MissingIff` | `charts/union-csi-driver/templates/mutatingadmissionpolicy.yaml:43-51` | Missing are exactly the pod volumes that a mounted union is built from and that nothing mounts, each once |
| `Admission.PlaceIsFirst` | `charts/union-csi-driver/templates/mutatingadmissionpolicy.yaml:56-60` | Each goes to the first container that mounts a union built from it, an init container only if no other does, and that container has mounts to append to |
| `Admission.AdmitGrows` | `charts/union-csi-driver/templates/mutatingadmissionpolicy.yaml:52-61` | The patch always applies; every container keeps its mounts in order and gets exactly its share behind them; nothing else changes |
| `Admission.MountedAfter` | `charts/union-csi-driver/templates/mutatingadmissionpolicy.yaml:43-61` | Mounted afterwards is exactly what was mounted or missing |
| `Admission.AdmissionCloses` | `charts/union-csi-driver/templates/mutatingadmissionpolicy.yaml:25-61` | Every source of a union that was mounted is mounted; and the patched pod is closed, and admitting it again changes nothing, if and only if no unmounted source of a mounted union is a union with a further source that nothing mounts and no mounted union is built from |
| `Admission.FlatPodsNestNothing` | `charts/union-csi-driver/templates/mutatingadmissionpolicy.yaml:25-61` | That holds where no union of the driver is a source of another |
| `AdmissionServes.PolicyReadsDriverNames` | `charts/union-csi-driver/templates/mutatingadmissionpolicy.yaml:30-36` | On every attribute the driver accepts the policy reads the names the driver reads |
| `AdmissionServes.AdmittedUnionsFindTheirSources` | `pkg/volsource/resolve.go:105-110` | The publish of a union in the admitted pod does not fail for an unmounted source, if a container mounted it before the patch or nothing is nested |
| `AdmissionServes.NestedUnionStaysOpen` | `charts/union-csi-driver/templates/mutatingadmissionpolicy.yaml:25-61` | The pod for which it does: a union of a union, of which only the outer one is mounted |
| `Text.SplitJoin` | `pkg/backend/mergerfs/argv.go:58-95` | Splitting undoes joining on parts free of the separator |
| `Ordering.SortedUnique` | `pkg/backend/mergerfs/argv.go:86-90` | A set of keys has one ascending order, so what is emitted from a map does not depend on its iteration order |

## Left out

- Supervision.StepIsTame: the kernel, FUSE, systemd scopes, the sandbox and the supervisor are effects that succeed or fail, with no model of their own.
- SupervisionRuns.WriteAhead: is about publishes that begin on time; LatePublish.WriteAheadIff is about all.
- SupervisionRuns.NoOrphanWithoutFailedUndo: likewise.
- MergerfsBackend.Backend.MountUnion: requires that nothing is mounted at the target, which the code does not look at again under the lock; LatePublish has what happens otherwise.
- MergerfsBackend.Backend.ShareUnion: likewise.
- NodeServer.NodePublish: takes the look at the target and the lock in one step.
- LatePublish.WriteAheadIff: a daemon that starts over a mount while another one of its volume still runs is not modelled.
- LatePublish.StepGoesWell: likewise.
- Resolver.ResolveOne: the directory itself is said by SourceIsPlaced, for names that can stand for one.
- SupervisionRuns.DaemonRunsAsPublished: a branch whose replacement failed counts as lost, also where the old copy would still be attached.
- SupervisionPasses.OnePassConverges: speaks of passes whose probes are conclusive and whose operations succeed, as ReconcileRepairsIff shows that a failed remount is not mended; operations on other volumes may be in flight but take no step in between.
- Resolver.SourceIsAUnionIff: says nothing of unions of a second driver name, which the code does not guard against.
- Resolution.RealPath: the tree does not change while it is walked; that a directory is swapped for a link afterwards is what the open calls guard against, and those are not modelled.
- Overlay.LookupIsLeftmost: contents are names in one directory; whiteouts, copy-up and merged subdirectories are the kernel's.
- Overlay.PlanLayout: does not provide that two unions with different declarations keep off the same upper directory, and neither does the code.
- Argv.PlanRecord: an unsandboxed daemon's bind mounts are the host's own, so its record holds no branches and nothing is said about them.
- Relative paths and symlinks with an empty target, which Linux does not create.
- Opening layers and the workspace: file descriptors, filesystem checks and O_NOFOLLOW; the paths of the opened directories are parameters.
- WaitReady, tickers and timeouts: whether waiting ended well is a parameter.
- JSON files, logs and log tails, glob escaping, gRPC, identity and endpoint code, and the Kubernetes client.
- The option defaults and denylists that are plain constants, and startup flags.
- Helm values, images, release tooling and the end-to-end harness.
