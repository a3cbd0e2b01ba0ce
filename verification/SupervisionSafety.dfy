/** What every step of the supervision protocol keeps, and what follows for whole runs. */
module SupervisionSafety {
  import opened Argv
  import opened Stale
  import opened Supervision

  // ---- the invariant, volume by volume ----

  ghost predicate DaemonOk(cfg: Config, s: State, id: Id)
    requires id in s.daemons
  {
    var d := s.daemons[id];
    && d.pid < s.nextPid && FitsConfig(cfg, id, d.started) && !IsView(d.started)
    && |d.clones| == |d.started.branches|
    && (forall i | 0 <= i < |d.clones| :: d.clones[i].Here? ==> d.clones[i].value == d.started.branches[i])
  }

  ghost predicate Holds(s: State, id: Id, st: Record) {
    id in s.records && s.records[id] == st
  }

  /** Either the stored record describes the mount, or a failed publish left it dead. */
  ghost predicate MountOk(cfg: Config, s: State, id: Id, m: Mount) {
    && FitsConfig(cfg, id, m.record) && m.record.target in s.dirs && m.pid < s.nextPid
    && (Holds(s, id, m.record) || (m.record.target in s.leaked && !Alive(s, m) && id !in s.records))
    && (!IsView(m.record) ==>
          && m.owner == id
          && (id in s.daemons ==> s.daemons[id].pid == m.pid && s.daemons[id].started == m.record))
    && (IsView(m.record) && cfg.seal ==> m.sealed)
  }

  /** No process of id serves anything any more. */
  predicate CutOff(s: State, id: Id) {
    id in s.daemons ==> s.daemons[id].cut
  }

  /** What the holder of the lock of id relies on until its next effect. */
  ghost predicate OpOk(cfg: Config, s: State, id: Id, t: Target, op: Op) {
    match op
    case MountSave(st) => FitsConfig(cfg, id, st) && !IsView(st) && t !in s.mounts
    case ShareSave(st) => FitsConfig(cfg, id, st) && IsView(st) && t !in s.mounts
    case ShareBind(st) => Holds(s, id, st) && IsView(st) && t !in s.mounts
    case Start(st, publish) => Holds(s, id, st) && !IsView(st) && t !in s.mounts && (!publish ==> id !in s.daemons)
    case Seal(st, _) => Holds(s, id, st) && !IsView(st) && t in s.mounts && s.mounts[t].record == st && t !in s.leaked
    case SealUndo(st, _) => Holds(s, id, st) && !IsView(st) && t in s.mounts && s.mounts[t].record == st
        && t !in s.leaked
    case Rollback(st) => FitsConfig(cfg, id, st) && (t in s.mounts ==> t in s.leaked)
    case UnmountDetach => true
    case UnmountStop => t !in s.mounts
    case UnmountRemove => t !in s.mounts
    case Drop(st) => t !in s.mounts
    case RemountDetach(st) => Holds(s, id, st) && !IsView(st) && t in s.mounts && CutOff(s, id)
    case RemountStop(st) => Holds(s, id, st) && !IsView(st) && t !in s.mounts && CutOff(s, id)
    case RebindDetach(st) => Holds(s, id, st) && IsView(st) && t in s.mounts && !Alive(s, s.mounts[t])
    case RebindBind(st) => Holds(s, id, st) && IsView(st) && t !in s.mounts
    case Repair(st, pid, next) =>
      Holds(s, id, st) && next <= |st.branches| && (id in s.daemons ==> s.daemons[id].started == st)
  }

  ghost predicate VolumeOk(cfg: Config, s: State, id: Id)
    requires id in cfg.targetOf
  {
    var t := cfg.targetOf[id];
    && (id in s.records ==> FitsConfig(cfg, id, s.records[id]))
    && (id in s.daemons ==> DaemonOk(cfg, s, id))
    && (t in s.mounts ==> MountOk(cfg, s, id, s.mounts[t]))
    && (id in s.ops ==> OpOk(cfg, s, id, t, s.ops[id]))
    && (t in s.leaked ==> t in s.mounts && !IsView(s.mounts[t].record) && !Alive(s, s.mounts[t]))
  }

  ghost predicate Scoped(cfg: Config, s: State) {
    && s.records.Keys <= cfg.targetOf.Keys && s.daemons.Keys <= cfg.targetOf.Keys && s.ops.Keys <= cfg.targetOf.Keys
    && s.mounts.Keys <= cfg.targetOf.Values && s.leaked <= cfg.targetOf.Values
  }

  ghost predicate Inv(cfg: Config, s: State) {
    Scoped(cfg, s) && (forall id | id in cfg.targetOf :: VolumeOk(cfg, s, id))
  }

  // ---- a step of one volume leaves the others alone ----

  ghost predicate SameBut<K(!new), V>(a: map<K, V>, b: map<K, V>, k: K) {
    forall x | x != k :: (x in a <==> x in b) && (x in a ==> a[x] == b[x])
  }

  /** The same process, which does not get back what it was cut off from. */
  predicate SameProcess(d: Daemon, d': Daemon) {
    d'.pid == d.pid && d'.started == d.started && (d.cut ==> d'.cut)
  }

  /** Nothing but volume id and its target changed, and its daemon was not turned into
      another one under the same pid. */
  ghost predicate Confined(cfg: Config, s: State, s': State, id: Id)
    requires id in cfg.targetOf
  {
    var t := cfg.targetOf[id];
    && SameBut(s.records, s'.records, id) && SameBut(s.ops, s'.ops, id) && SameBut(s.daemons, s'.daemons, id)
    && SameBut(s.mounts, s'.mounts, t)
    && (forall x | x != t :: (x in s.leaked <==> x in s'.leaked) && (x in s.dirs <==> x in s'.dirs))
    && s.nextPid <= s'.nextPid
    && (id in s'.daemons ==>
          || s'.daemons[id].pid >= s.nextPid
          || (id in s.daemons && SameProcess(s.daemons[id], s'.daemons[id])))
  }

  lemma OthersStayOk(cfg: Config, s: State, s': State, id: Id, other: Id)
    requires GoodConfig(cfg) && id in cfg.targetOf && other in cfg.targetOf && other != id
    requires VolumeOk(cfg, s, other) && Confined(cfg, s, s', id)
    ensures VolumeOk(cfg, s', other)
  {
    var t := cfg.targetOf[other];
    assert t != cfg.targetOf[id];
    assert t in s.mounts <==> t in s'.mounts;
    assert other in s.records <==> other in s'.records;
    assert other in s.daemons <==> other in s'.daemons;
    assert other in s.ops <==> other in s'.ops;
    if t in s.mounts {
      var m := s.mounts[t];
      assert m.pid < s.nextPid;
      assert m.owner != id ==> (m.owner in s.daemons <==> m.owner in s'.daemons);
      assert Alive(s', m) ==> Alive(s, m) && s'.daemons[m.owner].started == s.daemons[m.owner].started;
    }
  }

  lemma ConfinedKeepsInv(cfg: Config, s: State, s': State, id: Id)
    requires GoodConfig(cfg) && Inv(cfg, s) && id in cfg.targetOf
    requires Confined(cfg, s, s', id) && VolumeOk(cfg, s', id)
    ensures Inv(cfg, s')
  {
    forall other | other in cfg.targetOf ensures VolumeOk(cfg, s', other) {
      if other != id {
        OthersStayOk(cfg, s, s', id, other);
      }
    }
    var t := cfg.targetOf[id];
    assert t in cfg.targetOf.Values;
    forall x | x in s'.mounts ensures x in cfg.targetOf.Values {
      if x != t { assert x in s.mounts; }
    }
  }

  // ---- every step keeps the invariant ----

  predicate Environment(e: Event) {
    e.PassBegin? || e.DriverRestart? || e.NodeReboot? || e.TargetMade? || e.TargetRemoved?
  }

  lemma RestartKeepsOk(cfg: Config, s: State, e: Event, id: Id)
    requires id in cfg.targetOf && VolumeOk(cfg, s, id)
    requires e.PassBegin? || e.DriverRestart? || e.NodeReboot?
    ensures VolumeOk(cfg, Apply(cfg, s, e), id)
  {}

  lemma TargetKeepsOk(cfg: Config, s: State, e: Event, id: Id)
    requires id in cfg.targetOf && VolumeOk(cfg, s, id) && Enabled(cfg, s, e)
    requires e.TargetMade? || e.TargetRemoved?
    ensures VolumeOk(cfg, Apply(cfg, s, e), id)
  {}

  ghost predicate StepsWell(cfg: Config, s: State, id: Id, s': State)
    requires id in cfg.targetOf
  {
    Confined(cfg, s, s', id) && VolumeOk(cfg, s', id)
  }

  ghost predicate Ready(cfg: Config, s: State, id: Id, e: Event) {
    GoodConfig(cfg) && id in cfg.targetOf && VolumeOk(cfg, s, id) && Enabled(cfg, s, e)
  }

  lemma MountBeginStepsWell(cfg: Config, s: State, id: Id, st: Record)
    requires Ready(cfg, s, id, MountBegin(id, st))
    ensures StepsWell(cfg, s, id, Apply(cfg, s, MountBegin(id, st)))
  {}

  lemma ShareBeginStepsWell(cfg: Config, s: State, id: Id, st: Record)
    requires Ready(cfg, s, id, ShareBegin(id, st))
    ensures StepsWell(cfg, s, id, Apply(cfg, s, ShareBegin(id, st)))
  {}

  lemma SavedStepsWell(cfg: Config, s: State, id: Id, ok: bool)
    requires Ready(cfg, s, id, Saved(id, ok))
    ensures StepsWell(cfg, s, id, Apply(cfg, s, Saved(id, ok)))
  {}

  lemma ShareBoundStepsWell(cfg: Config, s: State, id: Id, ok: bool, src: Id)
    requires Ready(cfg, s, id, ShareBound(id, ok))
    requires ok ==> src in cfg.targetOf && cfg.targetOf[src] == s.ops[id].st.sharedFrom && VolumeOk(cfg, s, src)
    ensures StepsWell(cfg, s, id, Apply(cfg, s, ShareBound(id, ok)))
  {
    if ok {
      SourceIsOld(cfg, s, src, s.ops[id].st.sharedFrom);
    }
  }

  lemma RolledBackStepsWell(cfg: Config, s: State, id: Id, ok: bool)
    requires Ready(cfg, s, id, RolledBack(id, ok))
    ensures StepsWell(cfg, s, id, Apply(cfg, s, RolledBack(id, ok)))
  {}

  lemma StartedStepsWell(cfg: Config, s: State, id: Id, ok: bool)
    requires Ready(cfg, s, id, Started(id, ok))
    ensures StepsWell(cfg, s, id, Apply(cfg, s, Started(id, ok)))
  {
    if ok {
      StartDaemonStepsWell(cfg, s, id, s.ops[id].st);
    }
  }

  lemma StartDaemonStepsWell(cfg: Config, s: State, id: Id, st: Record)
    requires id in cfg.targetOf && VolumeOk(cfg, s, id) && FitsConfig(cfg, id, st) && !IsView(st)
    requires st.target in s.dirs && st.target !in s.mounts && Holds(s, id, st)
    ensures var s' := StartDaemon(s, id, st);
            && Confined(cfg, s, s', id) && MountOk(cfg, s', id, s'.mounts[st.target]) && DaemonOk(cfg, s', id)
            && st.target !in s'.leaked
  {}

  lemma SealedStepsWell(cfg: Config, s: State, id: Id, ok: bool)
    requires Ready(cfg, s, id, Sealed(id, ok))
    ensures StepsWell(cfg, s, id, Apply(cfg, s, Sealed(id, ok)))
  {}

  lemma SealUndoneStepsWell(cfg: Config, s: State, id: Id, ok: bool)
    requires Ready(cfg, s, id, SealUndone(id, ok))
    ensures StepsWell(cfg, s, id, Apply(cfg, s, SealUndone(id, ok)))
  {
    if ok {
    } else if s.ops[id].publish {
    }
  }

  lemma UnmountBeginStepsWell(cfg: Config, s: State, id: Id)
    requires Ready(cfg, s, id, UnmountBegin(id))
    ensures StepsWell(cfg, s, id, Apply(cfg, s, UnmountBegin(id)))
  {}

  lemma UnmountDetachedStepsWell(cfg: Config, s: State, id: Id, ok: bool)
    requires Ready(cfg, s, id, UnmountDetached(id, ok))
    ensures StepsWell(cfg, s, id, Apply(cfg, s, UnmountDetached(id, ok)))
  {}

  lemma UnmountStoppedStepsWell(cfg: Config, s: State, id: Id, ok: bool)
    requires Ready(cfg, s, id, UnmountStopped(id, ok))
    ensures StepsWell(cfg, s, id, Apply(cfg, s, UnmountStopped(id, ok)))
  {}

  lemma UnmountRemovedStepsWell(cfg: Config, s: State, id: Id, ok: bool)
    requires Ready(cfg, s, id, UnmountRemoved(id, ok))
    ensures StepsWell(cfg, s, id, Apply(cfg, s, UnmountRemoved(id, ok)))
  {}

  lemma ReconcileBeginStepsWell(cfg: Config, s: State, id: Id, seen: Probed)
    requires Ready(cfg, s, id, ReconcileBegin(id, seen))
    ensures StepsWell(cfg, s, id, Apply(cfg, s, ReconcileBegin(id, seen)))
  {
    BeginIsConfined(cfg, s, id, seen);
    if id in s.records && seen != Other {
      if seen == Dead {
        BeginOnDead(cfg, s, id);
      } else if seen == Gone {
        BeginOnGone(cfg, s, id);
      } else {
        BeginOnAnswering(cfg, s, id, seen);
      }
    }
  }

  lemma BeginIsConfined(cfg: Config, s: State, id: Id, seen: Probed)
    requires id in cfg.targetOf
    ensures Confined(cfg, s, BeginReconcile(cfg, s, id, seen), id)
  {}

  lemma BeginOnDead(cfg: Config, s: State, id: Id)
    requires id in cfg.targetOf && VolumeOk(cfg, s, id) && Idle(s, id)
    requires id in s.records && Probe(s, s.records[id].target) == Dead
    ensures VolumeOk(cfg, BeginReconcile(cfg, s, id, Dead), id)
  {}

  lemma BeginOnGone(cfg: Config, s: State, id: Id)
    requires id in cfg.targetOf && VolumeOk(cfg, s, id) && Idle(s, id)
    requires id in s.records && Probe(s, s.records[id].target) == Gone
    ensures VolumeOk(cfg, BeginReconcile(cfg, s, id, Gone), id)
  {}

  lemma BeginOnAnswering(cfg: Config, s: State, id: Id, seen: Probed)
    requires id in cfg.targetOf && VolumeOk(cfg, s, id) && Idle(s, id) && (seen == Live || seen == Hung)
    requires id in s.records && Probe(s, s.records[id].target) == seen
    ensures VolumeOk(cfg, BeginReconcile(cfg, s, id, seen), id)
  {}

  lemma DroppedStepsWell(cfg: Config, s: State, id: Id, ok: bool)
    requires Ready(cfg, s, id, Dropped(id, ok))
    ensures StepsWell(cfg, s, id, Apply(cfg, s, Dropped(id, ok)))
  {}

  lemma RemountDetachedStepsWell(cfg: Config, s: State, id: Id, ok: bool)
    requires Ready(cfg, s, id, RemountDetached(id, ok))
    ensures StepsWell(cfg, s, id, Apply(cfg, s, RemountDetached(id, ok)))
  {}

  lemma RemountStoppedStepsWell(cfg: Config, s: State, id: Id, ok: bool)
    requires Ready(cfg, s, id, RemountStopped(id, ok))
    ensures StepsWell(cfg, s, id, Apply(cfg, s, RemountStopped(id, ok)))
  {}

  lemma RebindDetachedStepsWell(cfg: Config, s: State, id: Id, ok: bool)
    requires Ready(cfg, s, id, RebindDetached(id, ok))
    ensures StepsWell(cfg, s, id, Apply(cfg, s, RebindDetached(id, ok)))
  {}

  lemma RebindBoundStepsWell(cfg: Config, s: State, id: Id, ok: bool, src: Id)
    requires Ready(cfg, s, id, RebindBound(id, ok))
    requires ok ==> src in cfg.targetOf && cfg.targetOf[src] == s.ops[id].st.sharedFrom && VolumeOk(cfg, s, src)
    ensures StepsWell(cfg, s, id, Apply(cfg, s, RebindBound(id, ok)))
  {
    if ok {
      SourceIsOld(cfg, s, src, s.ops[id].st.sharedFrom);
    }
  }

  lemma BranchSeenStepsWell(cfg: Config, s: State, id: Id, sight: Sight)
    requires Ready(cfg, s, id, BranchSeen(id, sight))
    ensures StepsWell(cfg, s, id, Apply(cfg, s, BranchSeen(id, sight)))
  {
    SeeBranchStepsWell(cfg, s, id, sight);
  }

  /** A replaced branch is a clone of the same bind; a failed replacement leaves none. */
  lemma SetCloneKeepsDaemon(cfg: Config, s: State, id: Id, i: nat, clone: Absent<Bind>)
    requires id in s.daemons && DaemonOk(cfg, s, id) && i < |s.daemons[id].started.branches|
    requires clone.Lost? || clone.value == s.daemons[id].started.branches[i]
    ensures var d' := SetClone(s.daemons, id, i, clone);
            && SameBut(s.daemons, d', id) && id in d'
            && SameProcess(s.daemons[id], d'[id])
            && DaemonOk(cfg, s.(daemons := d'), id)
  {}

  lemma TurnStepsWell(cfg: Config, s: State, id: Id, daemons: map<Id, Daemon>, stale: Counter)
    requires id in cfg.targetOf && VolumeOk(cfg, s, id)
    requires id in s.ops && s.ops[id].Repair? && s.ops[id].next < |s.ops[id].st.branches|
    requires SameBut(s.daemons, daemons, id) && (id in daemons <==> id in s.daemons)
    requires id in daemons ==>
               && SameProcess(s.daemons[id], daemons[id])
               && DaemonOk(cfg, s.(daemons := daemons), id)
    ensures var op := s.ops[id];
            StepsWell(cfg, s, id, Become(s, id, op.(next := op.next + 1)).(daemons := daemons, stale := stale))
  {}

  lemma SeeBranchStepsWell(cfg: Config, s: State, id: Id, sight: Sight)
    requires id in cfg.targetOf && VolumeOk(cfg, s, id)
    requires id in s.ops && s.ops[id].Repair? && s.ops[id].next < |s.ops[id].st.branches|
    ensures StepsWell(cfg, s, id, SeeBranch(s, id, sight))
  {
    var s', i := SeeBranch(s, id, sight), s.ops[id].next;
    if id in s.daemons {
      SetCloneKeepsDaemon(cfg, s, id, i, Here(s.ops[id].st.branches[i]));
      SetCloneKeepsDaemon(cfg, s, id, i, Lost);
    }
    assert s' == Become(s, id, s.ops[id].(next := i + 1)).(daemons := s'.daemons, stale := s'.stale);
    TurnStepsWell(cfg, s, id, s'.daemons, s'.stale);
  }

  lemma RepairEndStepsWell(cfg: Config, s: State, id: Id)
    requires Ready(cfg, s, id, RepairEnd(id))
    ensures StepsWell(cfg, s, id, Apply(cfg, s, RepairEnd(id)))
  {}

  lemma DaemonExitStepsWell(cfg: Config, s: State, id: Id)
    requires Ready(cfg, s, id, DaemonExit(id))
    ensures StepsWell(cfg, s, id, Apply(cfg, s, DaemonExit(id)))
  {}

  /** A process that gets stuck, or loose again, or is cut off. */
  lemma DaemonChangesWell(cfg: Config, s: State, id: Id, d: Daemon)
    requires GoodConfig(cfg) && id in cfg.targetOf && VolumeOk(cfg, s, id) && id in s.daemons
    requires SameProcess(s.daemons[id], d) && d.clones == s.daemons[id].clones
    ensures StepsWell(cfg, s, id, s.(daemons := s.daemons[id := d]))
  {}

  lemma DaemonStuckStepsWell(cfg: Config, s: State, id: Id, stuck: bool)
    requires Ready(cfg, s, id, DaemonStuck(id, stuck))
    ensures StepsWell(cfg, s, id, Apply(cfg, s, DaemonStuck(id, stuck)))
  {
    DaemonChangesWell(cfg, s, id, s.daemons[id].(stuck := stuck));
  }

  lemma DaemonCutStepsWell(cfg: Config, s: State, id: Id)
    requires Ready(cfg, s, id, DaemonCut(id))
    ensures StepsWell(cfg, s, id, Apply(cfg, s, DaemonCut(id)))
  {
    DaemonChangesWell(cfg, s, id, s.daemons[id].(cut := true));
  }

  /** What is bound was made by a process that was started before. */
  lemma SourceIsOld(cfg: Config, s: State, src: Id, t: Target)
    requires src in cfg.targetOf && cfg.targetOf[src] == t && VolumeOk(cfg, s, src) && Serving(cfg, s, t)
    ensures s.mounts[t].pid < s.nextPid && (cfg.seal ==> s.mounts[t].sealed)
  {}

  ghost function VolumeAt(cfg: Config, t: Target): (id: Id)
    requires t in cfg.targetOf.Values
    ensures id in cfg.targetOf && cfg.targetOf[id] == t
  {
    var id :| id in cfg.targetOf && cfg.targetOf[id] == t;
    id
  }

  lemma PublishStepsWell(cfg: Config, s: State, e: Event)
    requires e.MountBegin? || e.ShareBegin? || e.Saved? || e.RolledBack? || e.Started? || e.Sealed? || e.SealUndone?
    requires Ready(cfg, s, e.id, e)
    ensures StepsWell(cfg, s, e.id, Apply(cfg, s, e))
  {
    match e {
      case MountBegin(id, st) => MountBeginStepsWell(cfg, s, id, st);
      case ShareBegin(id, st) => ShareBeginStepsWell(cfg, s, id, st);
      case Saved(id, ok) => SavedStepsWell(cfg, s, id, ok);
      case RolledBack(id, ok) => RolledBackStepsWell(cfg, s, id, ok);
      case Started(id, ok) => StartedStepsWell(cfg, s, id, ok);
      case Sealed(id, ok) => SealedStepsWell(cfg, s, id, ok);
      case SealUndone(id, ok) => SealUndoneStepsWell(cfg, s, id, ok);
    }
  }

  lemma UnpublishStepsWell(cfg: Config, s: State, e: Event)
    requires e.UnmountBegin? || e.UnmountDetached? || e.UnmountStopped? || e.UnmountRemoved?
    requires Ready(cfg, s, e.id, e)
    ensures StepsWell(cfg, s, e.id, Apply(cfg, s, e))
  {
    match e {
      case UnmountBegin(id) => UnmountBeginStepsWell(cfg, s, id);
      case UnmountDetached(id, ok) => UnmountDetachedStepsWell(cfg, s, id, ok);
      case UnmountStopped(id, ok) => UnmountStoppedStepsWell(cfg, s, id, ok);
      case UnmountRemoved(id, ok) => UnmountRemovedStepsWell(cfg, s, id, ok);
    }
  }

  lemma ReconcileStepsWell(cfg: Config, s: State, e: Event)
    requires e.ReconcileBegin? || e.Dropped? || e.RemountDetached? || e.RemountStopped? || e.RebindDetached?
    requires Ready(cfg, s, e.id, e)
    ensures StepsWell(cfg, s, e.id, Apply(cfg, s, e))
  {
    match e {
      case ReconcileBegin(id, seen) => ReconcileBeginStepsWell(cfg, s, id, seen);
      case Dropped(id, ok) => DroppedStepsWell(cfg, s, id, ok);
      case RemountDetached(id, ok) => RemountDetachedStepsWell(cfg, s, id, ok);
      case RemountStopped(id, ok) => RemountStoppedStepsWell(cfg, s, id, ok);
      case RebindDetached(id, ok) => RebindDetachedStepsWell(cfg, s, id, ok);
    }
  }

  lemma RunningStepsWell(cfg: Config, s: State, e: Event)
    requires e.BranchSeen? || e.RepairEnd? || e.DaemonExit? || e.DaemonStuck? || e.DaemonCut?
    requires Ready(cfg, s, e.id, e)
    ensures StepsWell(cfg, s, e.id, Apply(cfg, s, e))
  {
    match e {
      case BranchSeen(id, sight) => BranchSeenStepsWell(cfg, s, id, sight);
      case RepairEnd(id) => RepairEndStepsWell(cfg, s, id);
      case DaemonExit(id) => DaemonExitStepsWell(cfg, s, id);
      case DaemonStuck(id, stuck) => DaemonStuckStepsWell(cfg, s, id, stuck);
      case DaemonCut(id) => DaemonCutStepsWell(cfg, s, id);
    }
  }

  lemma BindStepsWell(cfg: Config, s: State, e: Event)
    requires e.ShareBound? || e.RebindBound?
    requires Inv(cfg, s) && Ready(cfg, s, e.id, e)
    ensures StepsWell(cfg, s, e.id, Apply(cfg, s, e))
  {
    var src := if e.ok then VolumeAt(cfg, s.ops[e.id].st.sharedFrom) else e.id;
    if e.ShareBound? {
      ShareBoundStepsWell(cfg, s, e.id, e.ok, src);
    } else {
      RebindBoundStepsWell(cfg, s, e.id, e.ok, src);
    }
  }

  lemma EnvironmentKeepsInv(cfg: Config, s: State, e: Event)
    requires GoodConfig(cfg) && Inv(cfg, s) && Enabled(cfg, s, e) && Environment(e)
    ensures Inv(cfg, Apply(cfg, s, e))
  {
    EnvironmentIsScoped(cfg, s, e);
    forall id | id in cfg.targetOf ensures VolumeOk(cfg, Apply(cfg, s, e), id) {
      if e.TargetMade? || e.TargetRemoved? {
        TargetKeepsOk(cfg, s, e, id);
      } else {
        RestartKeepsOk(cfg, s, e, id);
      }
    }
  }

  lemma EnvironmentIsScoped(cfg: Config, s: State, e: Event)
    requires Scoped(cfg, s) && Enabled(cfg, s, e) && Environment(e)
    ensures Scoped(cfg, Apply(cfg, s, e))
  {}

  lemma VolumeStepsWell(cfg: Config, s: State, e: Event)
    requires GoodConfig(cfg) && Inv(cfg, s) && Enabled(cfg, s, e) && !Environment(e) && e.id in cfg.targetOf
    ensures StepsWell(cfg, s, e.id, Apply(cfg, s, e))
  {
    if e.ShareBound? || e.RebindBound? {
      BindStepsWell(cfg, s, e);
    } else if e.MountBegin? || e.ShareBegin? || e.Saved? || e.RolledBack? || e.Started? || e.Sealed? || e.SealUndone? {
      PublishStepsWell(cfg, s, e);
    } else if e.UnmountBegin? || e.UnmountDetached? || e.UnmountStopped? || e.UnmountRemoved? {
      UnpublishStepsWell(cfg, s, e);
    } else if e.ReconcileBegin? || e.Dropped? || e.RemountDetached? || e.RemountStopped? || e.RebindDetached? {
      ReconcileStepsWell(cfg, s, e);
    } else {
      RunningStepsWell(cfg, s, e);
    }
  }

  lemma StepKeepsInv(cfg: Config, s: State, e: Event)
    requires GoodConfig(cfg) && Inv(cfg, s) && Enabled(cfg, s, e)
    ensures Inv(cfg, Apply(cfg, s, e))
  {
    if Environment(e) {
      EnvironmentKeepsInv(cfg, s, e);
    } else if e.id in cfg.targetOf {
      VolumeStepsWell(cfg, s, e);
      ConfinedKeepsInv(cfg, s, Apply(cfg, s, e), e.id);
    }
  }
}
