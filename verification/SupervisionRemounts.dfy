/** Where a reconcile mounts (pkg/backend/mergerfs/reconcile_linux.go): only at a target it
    saw to be a dead mount, and so not where nothing is mounted any more. */
module SupervisionRemounts {
  import opened Argv
  import opened Supervision
  import opened SupervisionSafety
  import opened SupervisionRuns
  import opened SupervisionConvergence

  // ---- a target that is not mounted ----

  /** An operation that may yet mount its target. */
  predicate WillMount(op: Op) {
    || op.MountSave? || op.ShareSave? || op.ShareBind? || op.Start? || op.Seal? || op.SealUndo?
    || op.RemountDetach? || op.RemountStop? || op.RebindDetach? || op.RebindBind?
  }

  /** The target of id is not mounted, and nobody is about to mount it. */
  ghost predicate Resting(cfg: Config, s: State, id: Id)
    requires id in cfg.targetOf
  {
    cfg.targetOf[id] !in s.mounts && (id in s.ops ==> !WillMount(s.ops[id]))
  }

  predicate Publishes(id: Id, e: Event) {
    (e.MountBegin? || e.ShareBegin?) && e.id == id
  }

  lemma PublishRests(cfg: Config, s: State, e: Event)
    requires (IsPublish(e) || IsStart(e)) && Ready(cfg, s, e.id, e) && Resting(cfg, s, e.id) && !Publishes(e.id, e)
    ensures Resting(cfg, Apply(cfg, s, e), e.id)
  {}

  lemma UnpublishRests(cfg: Config, s: State, e: Event)
    requires IsUnpublish(e) && Ready(cfg, s, e.id, e) && Resting(cfg, s, e.id)
    ensures Resting(cfg, Apply(cfg, s, e), e.id)
  {}

  lemma RemountRests(cfg: Config, s: State, e: Event)
    requires IsRemount(e) && Ready(cfg, s, e.id, e) && Resting(cfg, s, e.id)
    ensures Resting(cfg, Apply(cfg, s, e), e.id)
  {}

  lemma ReconcileRests(cfg: Config, s: State, id: Id, seen: Probed)
    requires Ready(cfg, s, id, ReconcileBegin(id, seen)) && Resting(cfg, s, id)
    ensures Resting(cfg, BeginReconcile(cfg, s, id, seen), id)
  {}

  lemma LookRests(cfg: Config, s: State, id: Id, sight: Sight)
    requires id in cfg.targetOf && Resting(cfg, s, id)
    requires id in s.ops && s.ops[id].Repair? && s.ops[id].next < |s.ops[id].st.branches|
    ensures Resting(cfg, SeeBranch(s, id, sight), id)
  {}

  lemma DaemonRests(cfg: Config, s: State, e: Event)
    requires e.RepairEnd? || e.DaemonExit? || e.DaemonStuck? || e.DaemonCut?
    requires Ready(cfg, s, e.id, e) && Resting(cfg, s, e.id)
    ensures Resting(cfg, Apply(cfg, s, e), e.id)
  {}

  lemma OwnStepRests(cfg: Config, s: State, e: Event)
    requires !Environment(e) && Ready(cfg, s, e.id, e) && Resting(cfg, s, e.id) && !Publishes(e.id, e)
    ensures Resting(cfg, Apply(cfg, s, e), e.id)
  {
    if IsPublish(e) || IsStart(e) {
      PublishRests(cfg, s, e);
    } else if IsUnpublish(e) {
      UnpublishRests(cfg, s, e);
    } else if IsRemount(e) {
      RemountRests(cfg, s, e);
    } else if e.ReconcileBegin? {
      ReconcileRests(cfg, s, e.id, e.seen);
    } else if e.BranchSeen? {
      LookRests(cfg, s, e.id, e.sight);
    } else {
      DaemonRests(cfg, s, e);
    }
  }

  lemma OthersRest(cfg: Config, s: State, s': State, mover: Id, id: Id)
    requires GoodConfig(cfg) && mover in cfg.targetOf && id in cfg.targetOf && mover != id
             && Confined(cfg, s, s', mover)
    requires Resting(cfg, s, id)
    ensures Resting(cfg, s', id)
  {
    assert id in s'.ops <==> id in s.ops;
    assert cfg.targetOf[id] in s'.mounts <==> cfg.targetOf[id] in s.mounts;
  }

  lemma EnvironmentRests(cfg: Config, s: State, e: Event, id: Id)
    requires Environment(e) && Enabled(cfg, s, e) && id in cfg.targetOf && Resting(cfg, s, id)
    ensures Resting(cfg, Apply(cfg, s, e), id)
  {}

  lemma StepRests(cfg: Config, s: State, e: Event, id: Id)
    requires GoodConfig(cfg) && Inv(cfg, s) && Enabled(cfg, s, e) && id in cfg.targetOf
    requires Resting(cfg, s, id) && !Publishes(id, e)
    ensures Resting(cfg, Apply(cfg, s, e), id)
  {
    if Environment(e) {
      EnvironmentRests(cfg, s, e, id);
    } else if e.id !in cfg.targetOf {
      StrangerDoesNothing(cfg, s, e);
    } else if e.id == id {
      OwnStepRests(cfg, s, e);
    } else {
      VolumeStepsWell(cfg, s, e);
      OthersRest(cfg, s, Apply(cfg, s, e), e.id, id);
    }
  }

  /** Whatever passes come, in whatever order and with whatever outcome, and whether or not
      there is a record, a target that is not mounted stays so until its next publish. */
  lemma {:induction false} StaysUnmounted(cfg: Config, s: State, es: seq<Event>, id: Id)
    requires GoodConfig(cfg) && Inv(cfg, s) && Runs(cfg, s, es) && id in cfg.targetOf
    requires Resting(cfg, s, id) && forall e | e in es :: !Publishes(id, e)
    ensures Resting(cfg, After(cfg, s, es), id)
    decreases |es|
  {
    if es != [] {
      assert es[0] in es;
      StepRests(cfg, s, es[0], id);
      StepKeepsInv(cfg, s, es[0]);
      StaysUnmounted(cfg, Apply(cfg, s, es[0]), es[1..], id);
    }
  }

  // ---- what a reconcile repairs ----

  /** A whole reconcile whose operations succeed mounts and unmounts nothing for good. */
  lemma ReconcileKeepsMounted(cfg: Config, s: State, id: Id, es: seq<Event>, t: Target)
    requires GoodConfig(cfg) && Inv(cfg, s) && id !in s.ops && WholeReconcile(cfg, s, id, es)
    ensures t in After(cfg, s, es).mounts <==> t in s.mounts
  {
    ReconcileEffect(cfg, s, id, es);
  }

  /** It repairs exactly what is still a mount: a recorded union answers afterwards if and
      only if its target was mounted, dead or alive. A view answers if and only if it was
      mounted and either answered or had a source that serves. */
  lemma ReconcileRepairsIff(cfg: Config, s: State, id: Id, es: seq<Event>)
    requires GoodConfig(cfg) && Inv(cfg, s) && id !in s.ops && WholeReconcile(cfg, s, id, es) && id in s.records
    ensures
      var s', st := After(cfg, s, es), s.records[id];
      Answers(s', st.target) <==>
        st.target in s.mounts && (IsView(st) ==> Answers(s, st.target) || Serving(cfg, s, st.sharedFrom))
  {
    ReconcileEffect(cfg, s, id, es);
    var s' := After(cfg, s, es);
    if NeedsRepair(cfg, s, id) {
      RepairMends(cfg, s, id, s');
    } else {
      QuietKeepsAnswer(cfg, s, id, s', s.records[id].target);
    }
  }

  /** The driver dies between saving the record and starting the daemon: the target is a
      plain directory, the record stays, and by StaysUnmounted no reconcile ever mounts it. */
  lemma CrashBeforeStart(cfg: Config, id: Id, st: Record)
    requires GoodConfig(cfg) && FitsConfig(cfg, id, st) && !IsView(st)
    ensures var es := PublishSteps(id, st) + ([DriverRestart] + []);
            Runs(cfg, INITIAL, es) && Holds(After(cfg, INITIAL, es), id, st)
                && Resting(cfg, After(cfg, INITIAL, es), id)
  {
    PublishRuns(cfg, id, st);
    var s := After(cfg, INITIAL, PublishSteps(id, st));
    RunsCons(cfg, s, DriverRestart, []);
    RunsAppend(cfg, INITIAL, PublishSteps(id, st), s, [DriverRestart] + [], Apply(cfg, s, DriverRestart));
  }

  /** A publish that ends well, and then the daemon exits. */
  function DiesSteps(cfg: Config, id: Id): seq<Event> {
    [Started(id, true)] + ((if cfg.seal then [Sealed(id, true)] + [] else []) + ([DaemonExit(id)] + []))
  }

  function StopFailsSteps(id: Id): seq<Event> {
    [ReconcileBegin(id, Dead)] + ([RemountDetached(id, true)] + ([RemountStopped(id, false)] + []))
  }

  lemma DiesRuns(cfg: Config, s: State, id: Id, st: Record)
    requires FitsConfig(cfg, id, st) && st.target in s.dirs && id in s.ops && s.ops[id] == Start(st, true)
             && Holds(s, id, st)
    ensures Runs(cfg, s, DiesSteps(cfg, id))
    ensures var s' := After(cfg, s, DiesSteps(cfg, id));
              && id !in s'.ops && Holds(s', id, st)
              && Probe(s', st.target) == Dead
  {
    var s1 := Apply(cfg, s, Started(id, true));
    if cfg.seal {
      var s2 := Apply(cfg, s1, Sealed(id, true));
      RunsCons(cfg, s2, DaemonExit(id), []);
      RunsCons(cfg, s1, Sealed(id, true), [DaemonExit(id)] + []);
      assert ([Sealed(id, true)] + []) + ([DaemonExit(id)] + []) == [Sealed(id, true)] + ([DaemonExit(id)] + []);
      RunsCons(cfg, s, Started(id, true), [Sealed(id, true)] + ([DaemonExit(id)] + []));
    } else {
      RunsCons(cfg, s1, DaemonExit(id), []);
      assert [] + ([DaemonExit(id)] + []) == [DaemonExit(id)] + [];
      RunsCons(cfg, s, Started(id, true), [DaemonExit(id)] + []);
    }
  }

  lemma StopFailsRuns(cfg: Config, s: State, id: Id, st: Record)
    requires FitsConfig(cfg, id, st) && !IsView(st) && id !in s.ops && Holds(s, id, st) && Probe(s, st.target) == Dead
    ensures Runs(cfg, s, StopFailsSteps(id))
    ensures var s' := After(cfg, s, StopFailsSteps(id)); Holds(s', id, st) && Resting(cfg, s', id)
  {
    var s1 := Apply(cfg, s, ReconcileBegin(id, Dead));
    var s2 := Apply(cfg, s1, RemountDetached(id, true));
    RunsCons(cfg, s2, RemountStopped(id, false), []);
    RunsCons(cfg, s1, RemountDetached(id, true), [RemountStopped(id, false)] + []);
    RunsCons(cfg, s, ReconcileBegin(id, Dead), [RemountDetached(id, true)] + ([RemountStopped(id, false)] + []));
  }

  /** A daemon exits, and the stop of its remount fails behind the unmount: again a record
      whose target no reconcile mounts any more. */
  lemma FailedRemountStays(cfg: Config, id: Id, st: Record) returns (es: seq<Event>)
    requires GoodConfig(cfg) && FitsConfig(cfg, id, st) && !IsView(st)
    ensures es == PublishSteps(id, st) + DiesSteps(cfg, id) + StopFailsSteps(id) && Runs(cfg, INITIAL, es)
    ensures Holds(After(cfg, INITIAL, es), id, st) && Resting(cfg, After(cfg, INITIAL, es), id)
  {
    PublishRuns(cfg, id, st);
    var a := After(cfg, INITIAL, PublishSteps(id, st));
    DiesRuns(cfg, a, id, st);
    var b := After(cfg, a, DiesSteps(cfg, id));
    StopFailsRuns(cfg, b, id, st);
    RunsAppend(cfg, INITIAL, PublishSteps(id, st), a, DiesSteps(cfg, id), b);
    es := PublishSteps(id, st) + DiesSteps(cfg, id) + StopFailsSteps(id);
    var dead := PublishSteps(id, st) + DiesSteps(cfg, id);
    RunsAppend(cfg, INITIAL, dead, b, StopFailsSteps(id), After(cfg, b, StopFailsSteps(id)));
  }

  // ---- mounts only what it saw dead ----

  /** A reconcile of id that has begun to mount its target again. */
  predicate Remounting(s: State, id: Id) {
    id in s.ops &&
      match s.ops[id]
      case RemountDetach(_) => true
      case RemountStop(_) => true
      case RebindDetach(_) => true
      case RebindBind(_) => true
      case Start(_, publish) => !publish
      case Seal(_, publish) => !publish
      case SealUndo(_, publish) => !publish
      case _ => false
  }

  /** The step saw a dead mount at the target of id. */
  ghost predicate SawDead(cfg: Config, s: State, e: Event, id: Id)
    requires id in cfg.targetOf
  {
    e == ReconcileBegin(id, Dead) && Probe(s, cfg.targetOf[id]) == Dead
  }

  ghost predicate RemountingSince(cfg: Config, s: State, e: Event, id: Id, s': State)
    requires id in cfg.targetOf
  {
    Remounting(s', id) ==> Remounting(s, id) || SawDead(cfg, s, e, id)
  }

  lemma PublishSince(cfg: Config, s: State, e: Event)
    requires (IsPublish(e) || IsUnpublish(e)) && Ready(cfg, s, e.id, e)
    ensures RemountingSince(cfg, s, e, e.id, Apply(cfg, s, e))
  {}

  lemma StartSince(cfg: Config, s: State, e: Event)
    requires IsStart(e) && Ready(cfg, s, e.id, e)
    ensures RemountingSince(cfg, s, e, e.id, Apply(cfg, s, e))
  {}

  lemma RemountSince(cfg: Config, s: State, e: Event)
    requires IsRemount(e) && Ready(cfg, s, e.id, e)
    ensures RemountingSince(cfg, s, e, e.id, Apply(cfg, s, e))
  {}

  lemma ReconcileSince(cfg: Config, s: State, id: Id, seen: Probed)
    requires Ready(cfg, s, id, ReconcileBegin(id, seen))
    ensures RemountingSince(cfg, s, ReconcileBegin(id, seen), id, BeginReconcile(cfg, s, id, seen))
  {}

  lemma LookSince(cfg: Config, s: State, id: Id, sight: Sight)
    requires id in cfg.targetOf && id in s.ops && s.ops[id].Repair? && s.ops[id].next < |s.ops[id].st.branches|
    ensures RemountingSince(cfg, s, BranchSeen(id, sight), id, SeeBranch(s, id, sight))
  {}

  lemma DaemonSince(cfg: Config, s: State, e: Event)
    requires e.RepairEnd? || e.DaemonExit? || e.DaemonStuck? || e.DaemonCut?
    requires Ready(cfg, s, e.id, e)
    ensures RemountingSince(cfg, s, e, e.id, Apply(cfg, s, e))
  {}

  lemma EnvironmentSince(cfg: Config, s: State, e: Event, id: Id)
    requires Environment(e) && Enabled(cfg, s, e) && id in cfg.targetOf
    ensures RemountingSince(cfg, s, e, id, Apply(cfg, s, e))
  {}

  lemma OthersSince(cfg: Config, s: State, e: Event, mover: Id, id: Id, s': State)
    requires mover in cfg.targetOf && id in cfg.targetOf && mover != id && Confined(cfg, s, s', mover)
    ensures RemountingSince(cfg, s, e, id, s')
  {
    assert id in s'.ops <==> id in s.ops;
  }

  lemma StepSince(cfg: Config, s: State, e: Event, id: Id)
    requires GoodConfig(cfg) && Inv(cfg, s) && Enabled(cfg, s, e) && id in cfg.targetOf
    ensures RemountingSince(cfg, s, e, id, Apply(cfg, s, e))
  {
    if Environment(e) {
      EnvironmentSince(cfg, s, e, id);
    } else if e.id !in cfg.targetOf {
      StrangerDoesNothing(cfg, s, e);
    } else if e.id == id {
      OwnStepSince(cfg, s, e);
    } else {
      VolumeStepsWell(cfg, s, e);
      OthersSince(cfg, s, e, e.id, id, Apply(cfg, s, e));
    }
  }

  lemma OwnStepSince(cfg: Config, s: State, e: Event)
    requires !Environment(e) && Ready(cfg, s, e.id, e)
    ensures RemountingSince(cfg, s, e, e.id, Apply(cfg, s, e))
  {
    if IsPublish(e) || IsUnpublish(e) {
      PublishSince(cfg, s, e);
    } else if IsStart(e) {
      StartSince(cfg, s, e);
    } else if IsRemount(e) {
      RemountSince(cfg, s, e);
    } else if e.ReconcileBegin? {
      ReconcileSince(cfg, s, e.id, e.seen);
    } else if e.BranchSeen? {
      LookSince(cfg, s, e.id, e.sight);
    } else {
      DaemonSince(cfg, s, e);
    }
  }

  lemma {:induction false} RunsSplit(cfg: Config, s: State, a: seq<Event>, b: seq<Event>)
    requires Runs(cfg, s, a + b)
    ensures Runs(cfg, s, a) && Runs(cfg, After(cfg, s, a), b) && After(cfg, s, a + b) == After(cfg, After(cfg, s, a), b)
    decreases |a|
  {
    if a == [] {
      assert a + b == b;
    } else {
      assert (a + b)[1..] == a[1..] + b;
      RunsSplit(cfg, Apply(cfg, s, a[0]), a[1..], b);
    }
  }

  /** The state in which step k of the run is taken. */
  ghost function Before(cfg: Config, es: seq<Event>, k: nat): State
    requires Runs(cfg, INITIAL, es) && k <= |es|
  {
    assert es == es[..k] + es[k..];
    RunsSplit(cfg, INITIAL, es[..k], es[k..]);
    After(cfg, INITIAL, es[..k])
  }

  /** Step j saw a dead mount at the target of id, and the lock has been held since. */
  ghost predicate HeldSince(cfg: Config, es: seq<Event>, id: Id, j: nat)
    requires Runs(cfg, INITIAL, es) && id in cfg.targetOf
  {
    && j < |es| && SawDead(cfg, Before(cfg, es, j), es[j], id)
    && forall k | j < k <= |es| :: id in Before(cfg, es, k).ops
  }

  lemma BeforeInPrefix(cfg: Config, front: seq<Event>, last: Event, k: nat)
    requires Runs(cfg, INITIAL, front + [last]) && k <= |front|
    ensures Runs(cfg, INITIAL, front) && Before(cfg, front + [last], k) == Before(cfg, front, k)
  {
    RunsSplit(cfg, INITIAL, front, [last]);
    assert (front + [last])[..k] == front[..k];
  }

  lemma BeforeEnd(cfg: Config, es: seq<Event>)
    requires Runs(cfg, INITIAL, es)
    ensures Before(cfg, es, |es|) == After(cfg, INITIAL, es)
  {
    assert es[..|es|] == es;
  }

  lemma HeldLonger(cfg: Config, front: seq<Event>, last: Event, id: Id, j: nat)
    requires id in cfg.targetOf && Runs(cfg, INITIAL, front) && Runs(cfg, INITIAL, front + [last])
    requires HeldSince(cfg, front, id, j) && id in After(cfg, INITIAL, front + [last]).ops
    ensures HeldSince(cfg, front + [last], id, j)
  {
    var es := front + [last];
    BeforeEnd(cfg, es);
    BeforeInPrefix(cfg, front, last, j);
    forall k | j < k <= |es| ensures id in Before(cfg, es, k).ops {
      if k < |es| {
        BeforeInPrefix(cfg, front, last, k);
      }
    }
  }

  lemma HeldAtOnce(cfg: Config, front: seq<Event>, last: Event, id: Id)
    requires id in cfg.targetOf && Runs(cfg, INITIAL, front) && Runs(cfg, INITIAL, front + [last])
    requires SawDead(cfg, After(cfg, INITIAL, front), last, id) && id in After(cfg, INITIAL, front + [last]).ops
    ensures HeldSince(cfg, front + [last], id, |front|)
  {
    BeforeEnd(cfg, front + [last]);
    BeforeInPrefix(cfg, front, last, |front|);
    BeforeEnd(cfg, front);
  }

  lemma {:induction false} RemountingSawDead(cfg: Config, es: seq<Event>, id: Id) returns (j: nat)
    requires GoodConfig(cfg) && Runs(cfg, INITIAL, es) && id in cfg.targetOf
    requires Remounting(After(cfg, INITIAL, es), id)
    ensures HeldSince(cfg, es, id, j)
    decreases |es|
  {
    assert es != [];
    var front, last := es[..|es| - 1], es[|es| - 1];
    assert es == front + [last];
    LastStepSince(cfg, front, last, id);
    if Remounting(After(cfg, INITIAL, front), id) {
      j := RemountingSawDead(cfg, front, id);
      HeldLonger(cfg, front, last, id, j);
    } else {
      j := |front|;
      HeldAtOnce(cfg, front, last, id);
    }
  }

  lemma LastStepSince(cfg: Config, front: seq<Event>, last: Event, id: Id)
    requires GoodConfig(cfg) && Runs(cfg, INITIAL, front + [last]) && id in cfg.targetOf
    ensures Runs(cfg, INITIAL, front)
    ensures RemountingSince(cfg, After(cfg, INITIAL, front), last, id, After(cfg, INITIAL, front + [last]))
  {
    RunsSplit(cfg, INITIAL, front, [last]);
    var s := After(cfg, INITIAL, front);
    RunsOne(cfg, s, last);
    InitialInv(cfg);
    RunKeepsInv(cfg, INITIAL, front);
    StepSince(cfg, s, last, id);
  }

  /** In every run, when a step of a reconcile mounts something, it is at the target of its
      volume, and this same reconcile found a dead mount there and has held the lock since. */
  lemma ReconcileMountsOnlyWhatItSawDead(cfg: Config, es: seq<Event>, s: State, e: Event, t: Target) returns (j: nat)
    requires GoodConfig(cfg) && RunsTo(cfg, INITIAL, es, s) && Enabled(cfg, s, e)
    requires OfReconcile(s, e) && !Environment(e) && e.id in cfg.targetOf
    requires t !in s.mounts && t in Apply(cfg, s, e).mounts
    ensures t == cfg.targetOf[e.id] && HeldSince(cfg, es, e.id, j)
  {
    InitialInv(cfg);
    RunKeepsInv(cfg, INITIAL, es);
    VolumeStepsWell(cfg, s, e);
    MountingIsRemounting(cfg, s, e, t);
    j := RemountingSawDead(cfg, es, e.id);
  }

  lemma MountingIsRemounting(cfg: Config, s: State, e: Event, t: Target)
    requires OfReconcile(s, e) && !Environment(e) && Ready(cfg, s, e.id, e) && StepsWell(cfg, s, e.id, Apply(cfg, s, e))
    requires t !in s.mounts && t in Apply(cfg, s, e).mounts
    ensures t == cfg.targetOf[e.id] && Remounting(s, e.id)
  {
    if e.ReconcileBegin? || e.BranchSeen? || e.RepairEnd? {
      MountsStay(cfg, s, e);
    }
  }
}
