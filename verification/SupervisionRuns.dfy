/** Properties of whole runs of the supervision protocol: any interleaving of publishes,
    unpublishes, reconciles, daemon exits, driver restarts and node reboots. */
module SupervisionRuns {
  import opened Argv
  import opened Stale
  import opened Supervision
  import opened SupervisionSafety

  ghost predicate Runs(cfg: Config, s: State, es: seq<Event>)
    decreases |es|
  {
    es == [] || (Enabled(cfg, s, es[0]) && Runs(cfg, Apply(cfg, s, es[0]), es[1..]))
  }

  ghost function After(cfg: Config, s: State, es: seq<Event>): State
    requires Runs(cfg, s, es)
    decreases |es|
  {
    if es == [] then s else After(cfg, Apply(cfg, s, es[0]), es[1..])
  }

  lemma {:induction false} RunKeepsInv(cfg: Config, s: State, es: seq<Event>)
    requires GoodConfig(cfg) && Inv(cfg, s) && Runs(cfg, s, es)
    ensures Inv(cfg, After(cfg, s, es))
    decreases |es|
  {
    if es != [] {
      StepKeepsInv(cfg, s, es[0]);
      RunKeepsInv(cfg, Apply(cfg, s, es[0]), es[1..]);
    }
  }

  ghost predicate RunsTo(cfg: Config, s: State, es: seq<Event>, s': State) {
    Runs(cfg, s, es) && After(cfg, s, es) == s'
  }

  lemma RunsOne(cfg: Config, s: State, e: Event)
    requires Enabled(cfg, s, e)
    ensures RunsTo(cfg, s, [e], Apply(cfg, s, e))
  {
    assert [e][1..] == [];
  }

  lemma {:induction false} RunsAppend(cfg: Config, s: State, a: seq<Event>, m: State, b: seq<Event>, s': State)
    requires RunsTo(cfg, s, a, m) && RunsTo(cfg, m, b, s')
    ensures RunsTo(cfg, s, a + b, s')
    decreases |a|
  {
    if a == [] {
      assert a + b == b;
    } else {
      assert (a + b)[0] == a[0] && (a + b)[1..] == a[1..] + b;
      RunsAppend(cfg, Apply(cfg, s, a[0]), a[1..], m, b, s');
    }
  }

  lemma Extend(cfg: Config, s: State, es: seq<Event>, m: State, e: Event)
    requires RunsTo(cfg, s, es, m) && Enabled(cfg, m, e)
    ensures RunsTo(cfg, s, es + [e], Apply(cfg, m, e))
  {
    RunsOne(cfg, m, e);
    RunsAppend(cfg, s, es, m, [e], Apply(cfg, m, e));
  }

  lemma InitialInv(cfg: Config)
    ensures Inv(cfg, INITIAL)
  {}

  // ---- write-ahead ----

  /** If the target of id is mounted, the stored record describes that mount. */
  ghost predicate Recorded(cfg: Config, s: State, id: Id)
    requires id in cfg.targetOf
  {
    var t := cfg.targetOf[id];
    t in s.mounts ==> Holds(s, id, s.mounts[t].record)
  }

  /** The step removes the record of a publish whose mount is still there. */
  predicate Orphans(cfg: Config, s: State, e: Event, id: Id)
    requires id in cfg.targetOf
  {
    e == RolledBack(id, true) && cfg.targetOf[id] in s.mounts
  }

  predicate Clears(id: Id, e: Event) {
    e == UnmountDetached(id, true) || e == NodeReboot
  }

  /** Some step of the run orphans the mount of id, and no later one clears it away. */
  ghost predicate Orphaned(cfg: Config, s: State, es: seq<Event>, id: Id)
    requires id in cfg.targetOf && Runs(cfg, s, es)
    decreases |es|
  {
    es != [] && (
      || (Orphans(cfg, s, es[0], id) && forall e | e in es[1..] :: !Clears(id, e))
      || Orphaned(cfg, Apply(cfg, s, es[0]), es[1..], id))
  }

  /** From s to s' a mount of id is left without its record exactly if e rolls a publish back
      under it, or the record was missing before and e does not clear the mount away. */
  ghost predicate OrphansJustSo(cfg: Config, s: State, e: Event, id: Id, s': State)
    requires id in cfg.targetOf
  {
    !Recorded(cfg, s', id) <==> Orphans(cfg, s, e, id) || (!Recorded(cfg, s, id) && !Clears(id, e))
  }

  lemma PublishOrphans(cfg: Config, s: State, e: Event)
    requires IsPublish(e) && !e.ShareBound? && Ready(cfg, s, e.id, e)
    ensures OrphansJustSo(cfg, s, e, e.id, Apply(cfg, s, e))
  {}

  lemma StartOrphans(cfg: Config, s: State, e: Event)
    requires IsStart(e) && Ready(cfg, s, e.id, e)
    ensures OrphansJustSo(cfg, s, e, e.id, Apply(cfg, s, e))
  {}

  lemma UnpublishOrphans(cfg: Config, s: State, e: Event)
    requires IsUnpublish(e) && Ready(cfg, s, e.id, e)
    ensures OrphansJustSo(cfg, s, e, e.id, Apply(cfg, s, e))
  {}

  lemma BindOrphans(cfg: Config, s: State, e: Event)
    requires (e.RebindBound? || e.ShareBound?) && Ready(cfg, s, e.id, e)
    ensures OrphansJustSo(cfg, s, e, e.id, Apply(cfg, s, e))
  {}

  lemma RemountOrphans(cfg: Config, s: State, e: Event)
    requires IsRemount(e) && !e.RebindBound? && Ready(cfg, s, e.id, e)
    ensures OrphansJustSo(cfg, s, e, e.id, Apply(cfg, s, e))
  {}

  lemma WatchOrphans(cfg: Config, s: State, e: Event)
    requires !IsPublish(e) && !IsStart(e) && !IsUnpublish(e) && !IsRemount(e) && !Environment(e)
             && Ready(cfg, s, e.id, e)
    ensures OrphansJustSo(cfg, s, e, e.id, Apply(cfg, s, e))
  {
    MountsStay(cfg, s, e);
  }

  lemma MountsStay(cfg: Config, s: State, e: Event)
    requires e.ReconcileBegin? || e.BranchSeen? || e.RepairEnd? || e.DaemonExit? || e.DaemonStuck? || e.DaemonCut?
    requires Enabled(cfg, s, e)
    ensures Apply(cfg, s, e).mounts == s.mounts && Apply(cfg, s, e).records == s.records
  {
    if e.ReconcileBegin? {
      BeginningMountsNothing(cfg, s, e.id, e.seen);
    } else if e.BranchSeen? {
      LookingMountsNothing(s, e.id, e.sight);
    }
  }

  lemma BeginningMountsNothing(cfg: Config, s: State, id: Id, seen: Probed)
    ensures BeginReconcile(cfg, s, id, seen).mounts == s.mounts && BeginReconcile(cfg, s, id, seen).records == s.records
  {}

  lemma LookingMountsNothing(s: State, id: Id, sight: Sight)
    requires id in s.ops && s.ops[id].Repair? && s.ops[id].next < |s.ops[id].st.branches|
    ensures SeeBranch(s, id, sight).mounts == s.mounts && SeeBranch(s, id, sight).records == s.records
  {}

  lemma EnvironmentOrphans(cfg: Config, s: State, e: Event, id: Id)
    requires Environment(e) && Enabled(cfg, s, e) && id in cfg.targetOf
    ensures OrphansJustSo(cfg, s, e, id, Apply(cfg, s, e))
  {}

  lemma OthersOrphan(cfg: Config, s: State, e: Event, s': State, id: Id)
    requires GoodConfig(cfg) && !Environment(e) && e.id in cfg.targetOf && id in cfg.targetOf && e.id != id
    requires Confined(cfg, s, s', e.id)
    ensures OrphansJustSo(cfg, s, e, id, s')
  {
    assert id in s'.records <==> id in s.records;
    assert cfg.targetOf[id] in s'.mounts <==> cfg.targetOf[id] in s.mounts;
  }

  lemma OwnStepOrphans(cfg: Config, s: State, e: Event)
    requires !Environment(e) && Ready(cfg, s, e.id, e)
    ensures OrphansJustSo(cfg, s, e, e.id, Apply(cfg, s, e))
  {
    if e.RebindBound? || e.ShareBound? {
      BindOrphans(cfg, s, e);
    } else if IsPublish(e) {
      PublishOrphans(cfg, s, e);
    } else if IsStart(e) {
      StartOrphans(cfg, s, e);
    } else if IsUnpublish(e) {
      UnpublishOrphans(cfg, s, e);
    } else if IsRemount(e) {
      RemountOrphans(cfg, s, e);
    } else {
      WatchOrphans(cfg, s, e);
    }
  }

  lemma StepOrphansIff(cfg: Config, s: State, e: Event, id: Id)
    requires GoodConfig(cfg) && Inv(cfg, s) && Enabled(cfg, s, e) && id in cfg.targetOf
    ensures OrphansJustSo(cfg, s, e, id, Apply(cfg, s, e))
  {
    if Environment(e) {
      EnvironmentOrphans(cfg, s, e, id);
    } else if e.id !in cfg.targetOf {
      StrangerDoesNothing(cfg, s, e);
    } else if e.id == id {
      OwnStepOrphans(cfg, s, e);
    } else {
      VolumeStepsWell(cfg, s, e);
      OthersOrphan(cfg, s, e, Apply(cfg, s, e), id);
    }
  }

  lemma {:induction false} RunOrphansIff(cfg: Config, s: State, es: seq<Event>, id: Id)
    requires GoodConfig(cfg) && Inv(cfg, s) && Runs(cfg, s, es) && id in cfg.targetOf
    ensures !Recorded(cfg, After(cfg, s, es), id) <==>
            Orphaned(cfg, s, es, id) || (!Recorded(cfg, s, id) && forall e | e in es :: !Clears(id, e))
    decreases |es|
  {
    if es != [] {
      StepOrphansIff(cfg, s, es[0], id);
      StepKeepsInv(cfg, s, es[0]);
      RunOrphansIff(cfg, Apply(cfg, s, es[0]), es[1..], id);
      assert es == [es[0]] + es[1..];
    }
  }

  /** A driver that starts anew after any run finds the record of every mount, except exactly
      those from under which a rollback took the record and that nothing cleared away since;
      and none of these answers. */
  lemma WriteAhead(cfg: Config, es: seq<Event>, id: Id)
    requires GoodConfig(cfg) && Runs(cfg, INITIAL, es) && id in cfg.targetOf
             && cfg.targetOf[id] in After(cfg, INITIAL, es).mounts
    ensures
      var s, t := After(cfg, INITIAL, es), cfg.targetOf[id];
      && FitsConfig(cfg, id, s.mounts[t].record)
      && (Holds(s, id, s.mounts[t].record) <==> !Orphaned(cfg, INITIAL, es, id))
      && (!Holds(s, id, s.mounts[t].record) ==> id !in s.records && Probe(s, t) == Dead)
  {
    InitialInv(cfg);
    RunKeepsInv(cfg, INITIAL, es);
    RunOrphansIff(cfg, INITIAL, es, id);
    assert VolumeOk(cfg, After(cfg, INITIAL, es), id);
  }

  lemma {:induction false} NoLeakWithoutFailedUndo(cfg: Config, s: State, es: seq<Event>)
    requires Runs(cfg, s, es) && s.leaked == {}
    requires forall e | e in es :: e.SealUndone? ==> e.ok
    ensures After(cfg, s, es).leaked == {}
    decreases |es|
  {
    if es != [] {
      assert es[0] in es;
      StepIsTame(cfg, s, es[0]);
      NoLeakWithoutFailedUndo(cfg, Apply(cfg, s, es[0]), es[1..]);
    }
  }

  /** It takes an unmount that fails while the seal of a publish is undone. */
  lemma NoOrphanWithoutFailedUndo(cfg: Config, es: seq<Event>, id: Id)
    requires GoodConfig(cfg) && Runs(cfg, INITIAL, es) && id in cfg.targetOf
    requires forall e | e in es :: e.SealUndone? ==> e.ok
    ensures Recorded(cfg, After(cfg, INITIAL, es), id) && !Orphaned(cfg, INITIAL, es, id)
  {
    InitialInv(cfg);
    RunKeepsInv(cfg, INITIAL, es);
    NoLeakWithoutFailedUndo(cfg, INITIAL, es);
    RunOrphansIff(cfg, INITIAL, es, id);
    assert VolumeOk(cfg, After(cfg, INITIAL, es), id);
  }

  /** A publish that a driver with nothing mounted carries up to the start of its daemon. */
  function PublishSteps(id: Id, st: Record): seq<Event> {
    [TargetMade(st.target)] + ([MountBegin(id, st)] + ([Saved(id, true)] + []))
  }

  lemma PublishRuns(cfg: Config, id: Id, st: Record)
    requires FitsConfig(cfg, id, st) && !IsView(st)
    ensures RunsTo(cfg, INITIAL, PublishSteps(id, st),
                   INITIAL.(dirs := {st.target}, records := map[id := st], ops := map[id := Start(st, true)]))
  {
    var s1 := Apply(cfg, INITIAL, TargetMade(st.target));
    var s2 := Apply(cfg, s1, MountBegin(id, st));
    RunsCons(cfg, s2, Saved(id, true), []);
    RunsCons(cfg, s1, MountBegin(id, st), [Saved(id, true)] + []);
    RunsCons(cfg, INITIAL, TargetMade(st.target), [MountBegin(id, st)] + ([Saved(id, true)] + []));
  }

  function FailedUndoSteps(id: Id): seq<Event> {
    [Started(id, true)] + ([Sealed(id, false)] + ([SealUndone(id, false)] + ([RolledBack(id, true)] + [])))
  }

  /** The run that orphans a mount: the seal of a publish fails, so does the unmount that
      undoes it, and then the record goes. */
  lemma FailedUndoOrphans(cfg: Config, id: Id, st: Record)
    requires GoodConfig(cfg) && cfg.seal && FitsConfig(cfg, id, st) && !IsView(st)
    ensures var es := PublishSteps(id, st) + FailedUndoSteps(id);
            && Runs(cfg, INITIAL, es)
            && var s := After(cfg, INITIAL, es); st.target in s.mounts && id !in s.records && !Recorded(cfg, s, id)
  {
    PublishRuns(cfg, id, st);
    var s := After(cfg, INITIAL, PublishSteps(id, st));
    FailedUndoRuns(cfg, s, id, st);
    RunsAppend(cfg, INITIAL, PublishSteps(id, st), s, FailedUndoSteps(id), After(cfg, s, FailedUndoSteps(id)));
  }

  lemma FailedUndoRuns(cfg: Config, s: State, id: Id, st: Record)
    requires cfg.seal && FitsConfig(cfg, id, st) && st.target in s.dirs && id in s.ops && s.ops[id] == Start(st, true)
    ensures Runs(cfg, s, FailedUndoSteps(id))
    ensures var s' := After(cfg, s, FailedUndoSteps(id)); st.target in s'.mounts && id !in s'.records
  {
    var s1 := Apply(cfg, s, Started(id, true));
    var s2 := Apply(cfg, s1, Sealed(id, false));
    var s3 := Apply(cfg, s2, SealUndone(id, false));
    RunsCons(cfg, s3, RolledBack(id, true), []);
    RunsCons(cfg, s2, SealUndone(id, false), [RolledBack(id, true)] + []);
    RunsCons(cfg, s1, Sealed(id, false), [SealUndone(id, false)] + ([RolledBack(id, true)] + []));
    var tail := [SealUndone(id, false)] + ([RolledBack(id, true)] + []);
    RunsCons(cfg, s, Started(id, true), [Sealed(id, false)] + tail);
  }

  lemma RunsCons(cfg: Config, s: State, e: Event, es: seq<Event>)
    requires Enabled(cfg, s, e) && Runs(cfg, Apply(cfg, s, e), es)
    ensures Runs(cfg, s, [e] + es) && After(cfg, s, [e] + es) == After(cfg, Apply(cfg, s, e), es)
  {
    assert ([e] + es)[1..] == es;
  }

  // ---- the steps of a reconcile ----

  /** The step is an effect of a reconcile. */
  predicate OfReconcile(s: State, e: Event) {
    || e.ReconcileBegin? || e.Dropped? || e.RemountDetached? || e.RemountStopped?
    || e.RebindDetached? || e.RebindBound? || e.BranchSeen? || e.RepairEnd?
    || (e.Started? && e.id in s.ops && s.ops[e.id].Start? && !s.ops[e.id].publish)
    || (e.Sealed? && e.id in s.ops && s.ops[e.id].Seal? && !s.ops[e.id].publish)
    || (e.SealUndone? && e.id in s.ops && s.ops[e.id].SealUndo? && !s.ops[e.id].publish)
  }

  predicate Answers(s: State, t: Target) {
    Probe(s, t) == Live || Probe(s, t) == Hung
  }

  predicate Taking(e: Event) {
    e.RemountDetached? || e.RemountStopped? || e.RebindDetached? || e.RebindBound?
  }

  predicate Making(e: Event) {
    e.Started? || e.Sealed?
  }

  lemma StrangerDoesNothing(cfg: Config, s: State, e: Event)
    requires Inv(cfg, s) && !Environment(e) && e.id !in cfg.targetOf && Enabled(cfg, s, e)
    ensures Apply(cfg, s, e) == s
  {
    assert e.id !in s.ops && e.id !in s.records && e.id !in s.daemons;
  }

  // ---- no resurrection ----

  lemma UnpublishEnds(cfg: Config, s: State, id: Id)
    requires GoodConfig(cfg) && Inv(cfg, s) && Enabled(cfg, s, UnmountRemoved(id, true)) && id in cfg.targetOf
    ensures var s' := Apply(cfg, s, UnmountRemoved(id, true)); id !in s'.records && cfg.targetOf[id] !in s'.mounts
  {
    assert VolumeOk(cfg, s, id);
  }

  /** Once a volume is unpublished nothing mounts its target, however old the list of the
      pass that still names it, until its next Mount or Share has saved a record. */
  lemma {:induction false} NoResurrection(cfg: Config, s: State, es: seq<Event>, id: Id)
    requires GoodConfig(cfg) && Inv(cfg, s) && Runs(cfg, s, es) && id in cfg.targetOf
    requires id !in s.records && cfg.targetOf[id] !in s.mounts
    requires Saved(id, true) !in es
    ensures var s' := After(cfg, s, es); id !in s'.records && cfg.targetOf[id] !in s'.mounts
    decreases |es|
  {
    if es != [] {
      assert es[0] in es;
      StepStaysGone(cfg, s, es[0], id);
      StepKeepsInv(cfg, s, es[0]);
      NoResurrection(cfg, Apply(cfg, s, es[0]), es[1..], id);
    }
  }

  lemma StepStaysGone(cfg: Config, s: State, e: Event, id: Id)
    requires GoodConfig(cfg) && Inv(cfg, s) && Enabled(cfg, s, e) && id in cfg.targetOf
    requires id !in s.records && cfg.targetOf[id] !in s.mounts && e != Saved(id, true)
    ensures var s' := Apply(cfg, s, e); id !in s'.records && cfg.targetOf[id] !in s'.mounts
  {
    if Environment(e) {
      EnvironmentStaysGone(cfg, s, e, id);
    } else if e.id !in cfg.targetOf {
      StrangerDoesNothing(cfg, s, e);
    } else if e.id == id {
      OwnStepStaysGone(cfg, s, e);
    } else {
      VolumeStepsWell(cfg, s, e);
      GoneByFrame(cfg, s, Apply(cfg, s, e), e.id, id);
    }
  }

  lemma EnvironmentStaysGone(cfg: Config, s: State, e: Event, id: Id)
    requires Environment(e) && Enabled(cfg, s, e) && id in cfg.targetOf
    requires id !in s.records && cfg.targetOf[id] !in s.mounts
    ensures var s' := Apply(cfg, s, e); id !in s'.records && cfg.targetOf[id] !in s'.mounts
  {}

  lemma GoneByFrame(cfg: Config, s: State, s': State, mover: Id, id: Id)
    requires GoodConfig(cfg) && mover in cfg.targetOf && id in cfg.targetOf && mover != id
             && Confined(cfg, s, s', mover)
    requires id !in s.records && cfg.targetOf[id] !in s.mounts
    ensures id !in s'.records && cfg.targetOf[id] !in s'.mounts
  {
    assert id in s'.records <==> id in s.records;
    assert cfg.targetOf[id] in s'.mounts <==> cfg.targetOf[id] in s.mounts;
  }

  ghost predicate StaysGone(cfg: Config, s: State, e: Event)
    requires !Environment(e) && e.id in cfg.targetOf && Enabled(cfg, s, e)
  {
    var s' := Apply(cfg, s, e);
    e.id !in s'.records && cfg.targetOf[e.id] !in s'.mounts
  }

  ghost predicate GoneBefore(cfg: Config, s: State, e: Event) {
    && !Environment(e) && e.id in cfg.targetOf && Enabled(cfg, s, e)
    && e.id !in s.records && cfg.targetOf[e.id] !in s.mounts && e != Saved(e.id, true)
    && (e.id in s.ops ==> OpOk(cfg, s, e.id, cfg.targetOf[e.id], s.ops[e.id]))
  }

  lemma PublishStaysGone(cfg: Config, s: State, e: Event)
    requires GoneBefore(cfg, s, e) && IsPublish(e)
    ensures StaysGone(cfg, s, e)
  {}

  lemma RemountStaysGone(cfg: Config, s: State, e: Event)
    requires GoneBefore(cfg, s, e) && IsRemount(e)
    ensures StaysGone(cfg, s, e)
  {}

  lemma OtherStaysGone(cfg: Config, s: State, e: Event)
    requires GoneBefore(cfg, s, e) && !IsPublish(e) && !IsStart(e) && !IsRemount(e)
    ensures StaysGone(cfg, s, e)
  {}

  lemma OwnStepStaysGone(cfg: Config, s: State, e: Event)
    requires !Environment(e) && e.id in cfg.targetOf && VolumeOk(cfg, s, e.id) && Enabled(cfg, s, e)
    requires e.id !in s.records && cfg.targetOf[e.id] !in s.mounts && e != Saved(e.id, true)
    ensures StaysGone(cfg, s, e)
  {
    if IsPublish(e) {
      PublishStaysGone(cfg, s, e);
    } else if IsRemount(e) {
      RemountStaysGone(cfg, s, e);
    } else if !IsStart(e) {
      OtherStaysGone(cfg, s, e);
    }
  }

  // ---- a daemon keeps the command line it was published with ----

  lemma {:induction false} RecordIsStable(cfg: Config, s: State, es: seq<Event>, id: Id, st: Record)
    requires Runs(cfg, s, es) && (id in s.records ==> s.records[id] == st)
    requires Saved(id, true) !in es
    ensures var s' := After(cfg, s, es); id in s'.records ==> s'.records[id] == st
    decreases |es|
  {
    if es != [] {
      assert es[0] in es;
      StepIsTame(cfg, s, es[0]);
      RecordIsStable(cfg, Apply(cfg, s, es[0]), es[1..], id, st);
    }
  }

  lemma AnsweringUnionRunsItsRecord(cfg: Config, s: State, id: Id, st: Record)
    requires id in cfg.targetOf && VolumeOk(cfg, s, id) && !IsView(st)
    requires id in s.records ==> s.records[id] == st
    requires Answers(s, cfg.targetOf[id])
    ensures ServedAsPublished(cfg, s, id, st)
  {}

  /** The mount at the target of id is of the process that runs for id, and that process was
      started from st and serves its branches, but for those it lost. */
  ghost predicate ServedAsPublished(cfg: Config, s: State, id: Id, st: Record)
    requires id in cfg.targetOf
  {
    var t := cfg.targetOf[id];
    && t in s.mounts && id in s.daemons && s.mounts[t].owner == id && s.mounts[t].pid == s.daemons[id].pid
    && s.mounts[t].record == st && s.daemons[id].started == st
    && |s.daemons[id].clones| == |st.branches|
    && forall i | 0 <= i < |st.branches| :: s.daemons[id].clones[i] in {Here(st.branches[i]), Lost}
  }

  /** After any crashes, remounts, repairs and restarts, whatever answers at the target of a
      published union runs with the command line, the branch order and the read-only flags
      that its publish computed. */
  lemma DaemonRunsAsPublished(cfg: Config, s: State, es: seq<Event>, id: Id, st: Record)
    requires GoodConfig(cfg) && Inv(cfg, s) && Runs(cfg, s, es) && id in cfg.targetOf
    requires Holds(s, id, st) && !IsView(st) && Saved(id, true) !in es
    ensures var s' := After(cfg, s, es); Answers(s', cfg.targetOf[id]) ==> ServedAsPublished(cfg, s', id, st)
  {
    RunKeepsInv(cfg, s, es);
    RecordIsStable(cfg, s, es, id, st);
    if Answers(After(cfg, s, es), cfg.targetOf[id]) {
      AnsweringUnionRunsItsRecord(cfg, After(cfg, s, es), id, st);
    }
  }

  // ---- the stale counter over a run ----

  function CounterOps(s: State, e: Event): seq<CounterOp> {
    match e
    case PassBegin(ids) => [RetainOp(ids)]
    case DriverRestart => [RetainOp([])]
    case NodeReboot => [RetainOp([])]
    case BranchSeen(id, sight) =>
      if id in s.ops && s.ops[id].Repair? && s.ops[id].next < |s.ops[id].st.branches| then
        var k := BranchKey(s, id);
        if !sight.staleInDaemon || !sight.liveOnHost then [ClearOp(k)]
        else [HitOp(k, s.ops[id].pid)] + if Attempted(s, e) && sight.replaced then [ClearOp(k)] else []
      else []
    case _ => []
  }

  function BranchKey(s: State, id: Id): Key
    requires id in s.ops && s.ops[id].Repair? && s.ops[id].next < |s.ops[id].st.branches|
  {
    Key(id, s.ops[id].st.branches[s.ops[id].next].sandbox)
  }

  /** This step tries to replace the branch it looks at. */
  predicate Attempted(s: State, e: Event) {
    && e.BranchSeen? && e.id in s.ops && s.ops[e.id].Repair? && s.ops[e.id].next < |s.ops[e.id].st.branches|
    && e.sight.staleInDaemon && e.sight.liveOnHost
    && Hit(s.stale, BranchKey(s, e.id), s.ops[e.id].pid)[BranchKey(s, e.id)].passes >= STALE_THRESHOLD
  }

  ghost function RunLog(cfg: Config, s: State, es: seq<Event>): seq<CounterOp>
    requires Runs(cfg, s, es)
    decreases |es|
  {
    if es == [] then [] else CounterOps(s, es[0]) + RunLog(cfg, Apply(cfg, s, es[0]), es[1..])
  }

  lemma ReplayOne(log: seq<CounterOp>, op: CounterOp)
    ensures Replay(log + [op]) == Perform(Replay(log), op)
  {
    assert (log + [op])[..|log|] == log;
  }

  lemma StepFollowsCounter(cfg: Config, s: State, e: Event, log: seq<CounterOp>)
    requires Enabled(cfg, s, e) && s.stale == Replay(log)
    ensures Apply(cfg, s, e).stale == Replay(log + CounterOps(s, e))
  {
    if e.BranchSeen? {
      TurnFollowsCounter(s, e.id, e.sight, log);
    } else if e.PassBegin? {
      ReplayOne(log, RetainOp(e.ids));
    } else if e.DriverRestart? || e.NodeReboot? {
      ReplayOne(log, RetainOp([]));
      assert Retain(s.stale, []) == map[];
    } else {
      assert log + [] == log;
      StepIsTame(cfg, s, e);
    }
  }

  lemma TurnFollowsCounter(s: State, id: Id, sight: Sight, log: seq<CounterOp>)
    requires id in s.ops && s.ops[id].Repair? && s.ops[id].next < |s.ops[id].st.branches|
    requires s.stale == Replay(log)
    ensures SeeBranch(s, id, sight).stale == Replay(log + CounterOps(s, BranchSeen(id, sight)))
  {
    var k, pid := BranchKey(s, id), s.ops[id].pid;
    ReplayOne(log, ClearOp(k));
    ReplayOne(log, HitOp(k, pid));
    ReplayOne(log + [HitOp(k, pid)], ClearOp(k));
    assert log + ([HitOp(k, pid)] + [ClearOp(k)]) == log + [HitOp(k, pid)] + [ClearOp(k)];
    assert log + ([HitOp(k, pid)] + []) == log + [HitOp(k, pid)];
  }

  lemma {:induction false} RunFollowsCounter(cfg: Config, s: State, es: seq<Event>, log: seq<CounterOp>)
    requires Runs(cfg, s, es) && s.stale == Replay(log)
    ensures After(cfg, s, es).stale == Replay(log + RunLog(cfg, s, es))
    decreases |es|
  {
    if es == [] {
      assert log + [] == log;
    } else {
      var next, ops := Apply(cfg, s, es[0]), CounterOps(s, es[0]);
      StepFollowsCounter(cfg, s, es[0], log);
      RunFollowsCounter(cfg, next, es[1..], log + ops);
      LogGrows(log, ops, RunLog(cfg, next, es[1..]));
    }
  }

  lemma LogGrows(log: seq<CounterOp>, ops: seq<CounterOp>, more: seq<CounterOp>)
    ensures log + (ops + more) == log + ops + more
  {}

  /** In every run, a branch found stale in the daemon and live on the host is replaced
      exactly when this sighting is at least the third in an unbroken row under this pid. */
  lemma ReplacedOnThirdSighting(cfg: Config, es: seq<Event>, e: Event) returns (n: nat)
    requires Runs(cfg, INITIAL, es) && Enabled(cfg, After(cfg, INITIAL, es), e)
    requires e.BranchSeen? && e.sight.staleInDaemon && e.sight.liveOnHost
    ensures
      var s := After(cfg, INITIAL, es);
      var k, pid := BranchKey(s, e.id), s.ops[e.id].pid;
      && LongestSuffix(History(RunLog(cfg, INITIAL, es) + [HitOp(k, pid)], k), pid, n)
      && (Attempted(s, e) <==> n >= STALE_THRESHOLD)
  {
    var s, log := After(cfg, INITIAL, es), RunLog(cfg, INITIAL, es);
    var k, pid := BranchKey(s, e.id), s.ops[e.id].pid;
    RunFollowsCounter(cfg, INITIAL, es, []);
    assert [] + log == log;
    ReplayOne(log, HitOp(k, pid));
    CounterIsStreak(log + [HitOp(k, pid)], k);
    n := Replay(log + [HitOp(k, pid)])[k].passes;
  }

  /** Looking at one branch leaves the others, and other daemons, as they are; the branch
      itself changes only when its replacement is attempted. */
  lemma TurnTouchesOneBranch(cfg: Config, s: State, id: Id, sight: Sight)
    requires Enabled(cfg, s, BranchSeen(id, sight))
    ensures var ds := Apply(cfg, s, BranchSeen(id, sight)).daemons;
            && SameBut(s.daemons, ds, id)
            && (!Attempted(s, BranchSeen(id, sight)) ==> ds == s.daemons)
            && (id in s.daemons ==>
                  && id in ds && |ds[id].clones| == |s.daemons[id].clones|
                  && forall j | 0 <= j < |ds[id].clones| && j != s.ops[id].next ::
                      ds[id].clones[j] == s.daemons[id].clones[j])
  {
    assert SeeBranch(s, id, sight).daemons == Apply(cfg, s, BranchSeen(id, sight)).daemons;
  }
}
