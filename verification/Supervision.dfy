/** The mergerfs supervision protocol as a machine of micro-steps: one step is one effect
    on the record store, the mount table or a daemon, so a driver restart may fall between
    any two of them (pkg/backend/mergerfs/mount_linux.go, reconcile_linux.go,
    probe_linux.go). Whether an effect succeeds is part of the step. */
module Supervision {
  import opened Argv
  import opened Stale

  type Id = string
  type Target = string

  /** What does not change: the target kubelet gives each volume, and the two flags. */
  datatype Config = Config(targetOf: map<Id, Target>, seal: bool)

  predicate GoodConfig(cfg: Config) {
    && "" !in cfg.targetOf.Values
    && (forall a, b | a in cfg.targetOf && b in cfg.targetOf && a != b :: cfg.targetOf[a] != cfg.targetOf[b])
  }

  predicate IsView(st: Record) {
    st.sharedFrom != ""
  }

  /** A running mergerfs process: the record it was started from and its copies of the
      branches, absent where a replacement detached the old one and failed. A stuck one does
      not answer; one that is cut off has lost its mounts for good, but the process lives. */
  datatype Daemon = Daemon(pid: nat, started: Record, clones: seq<Absent<Bind>>, stuck: bool, cut: bool)

  datatype Absent<T> = Here(value: T) | Lost

  /** A mount made for record, of the file system that process pid of volume owner serves.
      A view has the owner of its source. */
  datatype Mount = Mount(record: Record, owner: Id, pid: nat, sealed: bool)

  /** What an operation that holds the lock of a volume does next. */
  datatype Op =
    | MountSave(st: Record)
    | ShareSave(st: Record)
    | ShareBind(st: Record)
    | Start(st: Record, publish: bool)
    | Seal(st: Record, publish: bool)
    | SealUndo(st: Record, publish: bool)
    | Rollback(st: Record)
    | UnmountDetach
    | UnmountStop
    | UnmountRemove
    | Drop(st: Record)
    | RemountDetach(st: Record)
    | RemountStop(st: Record)
    | RebindDetach(st: Record)
    | RebindBind(st: Record)
    | Repair(st: Record, pid: nat, next: nat)

  datatype State = State(
    records: map<Id, Record>,
    dirs: set<Target>,
    mounts: map<Target, Mount>,
    daemons: map<Id, Daemon>,
    nextPid: nat,
    ops: map<Id, Op>,
    stale: Counter,
    // Targets whose mount a failed publish could not take down again.
    leaked: set<Target>)

  const INITIAL := State(map[], {}, map[], map[], 1, map[], map[], {})

  // ---- probing ----

  datatype Probed = Live | Dead | Hung | Gone | Other

  predicate Alive(s: State, m: Mount) {
    m.owner in s.daemons && s.daemons[m.owner].pid == m.pid && !s.daemons[m.owner].cut
  }

  function Probe(s: State, t: Target): Probed {
    if t in s.mounts then
      if !Alive(s, s.mounts[t]) then Dead
      else if s.daemons[s.mounts[t].owner].stuck then Hung
      else Live
    else if t in s.dirs then Other
    else Gone
  }

  predicate Serving(cfg: Config, s: State, t: Target) {
    Probe(s, t) == Live && (cfg.seal ==> s.mounts[t].sealed)
  }

  /** A union's own mount that can be shared. */
  predicate Shareable(cfg: Config, s: State, t: Target) {
    Serving(cfg, s, t) && !IsView(s.mounts[t].record)
  }

  // ---- steps ----

  /** What one look at a branch of a running daemon found. */
  datatype Sight = Sight(staleInDaemon: bool, liveOnHost: bool, replaced: bool)

  datatype Event =
    // publish
    | MountBegin(id: Id, st: Record)
    | ShareBegin(id: Id, st: Record)
    | Saved(id: Id, ok: bool)
    | ShareBound(id: Id, ok: bool)
    | RolledBack(id: Id, ok: bool)
    // starting a daemon, for a publish or for a reconcile
    | Started(id: Id, ok: bool)
    | Sealed(id: Id, ok: bool)
    | SealUndone(id: Id, ok: bool)
    // unpublish
    | UnmountBegin(id: Id)
    | UnmountDetached(id: Id, ok: bool)
    | UnmountStopped(id: Id, ok: bool)
    | UnmountRemoved(id: Id, ok: bool)
    // reconcile
    | PassBegin(ids: seq<Id>)
    | ReconcileBegin(id: Id, seen: Probed)
    | Dropped(id: Id, ok: bool)
    | RemountDetached(id: Id, ok: bool)
    | RemountStopped(id: Id, ok: bool)
    | RebindDetached(id: Id, ok: bool)
    | RebindBound(id: Id, ok: bool)
    | BranchSeen(id: Id, sight: Sight)
    | RepairEnd(id: Id)
    // environment
    | DaemonExit(id: Id)
    | DaemonStuck(id: Id, stuck: bool)
    | DaemonCut(id: Id)
    | DriverRestart
    | NodeReboot
    | TargetMade(target: Target)
    | TargetRemoved(target: Target)

  predicate FitsConfig(cfg: Config, id: Id, st: Record) {
    && id in cfg.targetOf && st.volumeID == id && st.target == cfg.targetOf[id]
    && (IsView(st) ==> st.branches == [])
  }

  predicate Idle(s: State, id: Id) {
    id !in s.ops
  }

  /** A probe that cannot tell is reported as Other. */
  predicate MaySee(s: State, t: Target, seen: Probed) {
    seen == Probe(s, t) || seen == Other
  }

  predicate Enabled(cfg: Config, s: State, e: Event) {
    match e
    // The driver has created the target and seen nothing mounted there.
    case MountBegin(id, st) =>
      Idle(s, id) && FitsConfig(cfg, id, st) && !IsView(st) && st.target !in s.mounts && st.target in s.dirs
    case ShareBegin(id, st) =>
      && Idle(s, id) && FitsConfig(cfg, id, st) && IsView(st)
      && st.target !in s.mounts && st.target in s.dirs && Serving(cfg, s, st.sharedFrom)
    case Saved(id, _) => id in s.ops && (s.ops[id].MountSave? || s.ops[id].ShareSave?)
    // Waiting for the source and binding it count as one step.
    case ShareBound(id, ok) =>
      && id in s.ops && s.ops[id].ShareBind?
      && (ok ==> Serving(cfg, s, s.ops[id].st.sharedFrom) && s.ops[id].st.target in s.dirs)
    case RolledBack(id, _) => id in s.ops && s.ops[id].Rollback?
    case Started(id, ok) => id in s.ops && s.ops[id].Start? && (ok ==> s.ops[id].st.target in s.dirs)
    case Sealed(id, _) => id in s.ops && s.ops[id].Seal? && cfg.seal
    case SealUndone(id, _) => id in s.ops && s.ops[id].SealUndo?
    case UnmountBegin(id) => Idle(s, id) && id in cfg.targetOf
    case UnmountDetached(id, _) => id in cfg.targetOf && id in s.ops && s.ops[id].UnmountDetach?
    case UnmountStopped(id, _) => id in s.ops && s.ops[id].UnmountStop?
    case UnmountRemoved(id, _) => id in s.ops && s.ops[id].UnmountRemove?
    case PassBegin(_) => true
    // Any id at any time: the list of a pass may have been taken long ago.
    case ReconcileBegin(id, seen) =>
      Idle(s, id) && (id in s.records ==> MaySee(s, s.records[id].target, seen))
    case Dropped(id, _) => id in s.ops && s.ops[id].Drop?
    case RemountDetached(id, _) => id in s.ops && s.ops[id].RemountDetach?
    case RemountStopped(id, _) => id in s.ops && s.ops[id].RemountStop?
    case RebindDetached(id, _) => id in s.ops && s.ops[id].RebindDetach?
    case RebindBound(id, ok) =>
      && id in s.ops && s.ops[id].RebindBind?
      && (ok ==> Serving(cfg, s, s.ops[id].st.sharedFrom) && s.ops[id].st.target in s.dirs)
    case BranchSeen(id, _) => id in s.ops && s.ops[id].Repair? && s.ops[id].next < |s.ops[id].st.branches|
    case RepairEnd(id) => id in s.ops && s.ops[id].Repair? && s.ops[id].next == |s.ops[id].st.branches|
    case DaemonExit(id) => id in s.daemons
    case DaemonStuck(id, _) => id in s.daemons
    case DaemonCut(id) => id in s.daemons
    case DriverRestart => true
    case NodeReboot => true
    case TargetMade(t) => true
    // A mount point cannot be removed.
    case TargetRemoved(t) => t !in s.mounts
  }

  function Become(s: State, id: Id, op: Op): State {
    s.(ops := s.ops[id := op])
  }

  function Done(s: State, id: Id): State {
    s.(ops := s.ops - {id})
  }

  function Clones(branches: seq<Bind>): seq<Absent<Bind>> {
    seq(|branches|, i requires 0 <= i < |branches| => Here(branches[i]))
  }

  function PidOf(s: State, id: Id): nat {
    if id in s.daemons then s.daemons[id].pid else 0
  }

  function BeginReconcile(cfg: Config, s: State, id: Id, seen: Probed): State {
    if id !in s.records then s
    else
      var st := s.records[id];
      match seen
      case Hung => BeginRepair(s, id)
      case Live => BeginRepair(s, id)
      case Gone => Become(s, id, Drop(st))
      case Dead =>
        if !IsView(st) then Become(s, id, RemountDetach(st))
        else if Serving(cfg, s, st.sharedFrom) then Become(s, id, RebindDetach(st))
        else s
      case Other => s
  }

  function BeginRepair(s: State, id: Id): State
    requires id in s.records
  {
    var st := s.records[id];
    if st.branches == [] || PidOf(s, id) == 0 then s else Become(s, id, Repair(st, PidOf(s, id), 0))
  }

  /** One turn of the loop of repairBranches. */
  function SeeBranch(s: State, id: Id, sight: Sight): State
    requires id in s.ops && s.ops[id].Repair? && s.ops[id].next < |s.ops[id].st.branches|
  {
    var Repair(st, pid, i) := s.ops[id];
    var br, k := st.branches[i], Key(id, st.branches[i].sandbox);
    var s1 := Become(s, id, Repair(st, pid, i + 1));
    if !sight.staleInDaemon || !sight.liveOnHost then s1.(stale := Clear(s.stale, k))
    else
      var hit := Hit(s.stale, k, pid);
      if hit[k].passes < STALE_THRESHOLD then s1.(stale := hit)
      else if sight.replaced then s1.(stale := Clear(hit, k), daemons := SetClone(s.daemons, id, i, Here(br)))
      else s1.(stale := hit, daemons := SetClone(s.daemons, id, i, Lost))
  }

  function SetClone(daemons: map<Id, Daemon>, id: Id, i: nat, clone: Absent<Bind>): map<Id, Daemon> {
    if id in daemons && i < |daemons[id].clones|
    then daemons[id := daemons[id].(clones := daemons[id].clones[i := clone])]
    else daemons
  }

  function Apply(cfg: Config, s: State, e: Event): State
    requires Enabled(cfg, s, e)
  {
    match e
    case MountBegin(id, st) => Become(s, id, MountSave(st))
    case ShareBegin(id, st) => Become(s, id, ShareSave(st))
    case Saved(id, ok) =>
      var op := s.ops[id];
      if !ok then Done(s, id)
      else Become(s.(records := s.records[id := op.st]), id, if op.MountSave? then Start(op.st, true)
          else ShareBind(op.st))
    case ShareBound(id, ok) =>
      var st := s.ops[id].st;
      if ok then Done(BindView(s, st), id) else Become(s, id, Rollback(st))
    case RolledBack(id, ok) => Done(if ok then s.(records := s.records - {id}) else s, id)
    case Started(id, ok) =>
      var Start(st, publish) := s.ops[id];
      if ok then
        var s1 := StartDaemon(s, id, st);
        if cfg.seal then Become(s1, id, Seal(st, publish)) else Done(s1, id)
      else if publish then Become(s, id, Rollback(st))
      else Done(s, id)
    case Sealed(id, ok) =>
      var Seal(st, publish) := s.ops[id];
      if !ok then Become(s, id, SealUndo(st, publish))
      else Done(if st.target in s.mounts then s.(mounts := s.mounts[st.target := s.mounts[st.target].(sealed := true)])
          else s, id)
    case SealUndone(id, ok) =>
      var SealUndo(st, publish) := s.ops[id];
      var s1 := s.(daemons := s.daemons - {id},
                   mounts := if ok then s.mounts - {st.target} else s.mounts,
                   leaked := if ok || !publish then s.leaked else s.leaked + {st.target});
      if publish then Become(s1, id, Rollback(st)) else Done(s1, id)
    case UnmountBegin(id) => Become(s, id, UnmountDetach)
    case UnmountDetached(id, ok) =>
      if ok then Become(Detach(s, cfg.targetOf[id]), id, UnmountStop) else Done(s, id)
    case UnmountStopped(id, ok) => Become(if ok then s.(daemons := s.daemons - {id}) else s, id, UnmountRemove)
    case UnmountRemoved(id, ok) => Done(if ok then s.(records := s.records - {id}) else s, id)
    case PassBegin(ids) => s.(stale := Retain(s.stale, ids))
    case ReconcileBegin(id, seen) => BeginReconcile(cfg, s, id, seen)
    case Dropped(id, ok) => Done(if ok then s.(records := s.records - {id}) else s, id)
    case RemountDetached(id, ok) =>
      var st := s.ops[id].st;
      if ok then Become(Detach(s, st.target), id, RemountStop(st)) else Done(s, id)
    case RemountStopped(id, ok) =>
      var st := s.ops[id].st;
      if ok then Become(s.(daemons := s.daemons - {id}), id, Start(st, false)) else Done(s, id)
    case RebindDetached(id, ok) =>
      var st := s.ops[id].st;
      if ok then Become(Detach(s, st.target), id, RebindBind(st)) else Done(s, id)
    case RebindBound(id, ok) =>
      Done(if ok then BindView(s, s.ops[id].st) else s, id)
    case BranchSeen(id, sight) => SeeBranch(s, id, sight)
    case RepairEnd(id) => Done(s, id)
    case DaemonExit(id) => s.(daemons := s.daemons - {id})
    case DaemonStuck(id, stuck) => s.(daemons := s.daemons[id := s.daemons[id].(stuck := stuck)])
    case DaemonCut(id) => s.(daemons := s.daemons[id := s.daemons[id].(cut := true)])
    case DriverRestart => s.(ops := map[], stale := map[])
    case NodeReboot => s.(ops := map[], stale := map[], mounts := map[], daemons := map[], leaked := {})
    case TargetMade(t) => s.(dirs := s.dirs + {t})
    case TargetRemoved(t) => s.(dirs := s.dirs - {t})
  }

  function StartDaemon(s: State, id: Id, st: Record): State {
    s.(daemons := s.daemons[id := Daemon(s.nextPid, st, Clones(st.branches), false, false)],
       mounts := s.mounts[st.target := Mount(st, id, s.nextPid, false)],
       nextPid := s.nextPid + 1)
  }

  function BindView(s: State, st: Record): State
    requires st.sharedFrom in s.mounts
  {
    s.(mounts := s.mounts[st.target := s.mounts[st.sharedFrom].(record := st)])
  }

  function Detach(s: State, t: Target): State {
    s.(mounts := s.mounts - {t}, leaked := s.leaked - {t})
  }

  // ---- what a step can change at all ----

  predicate TouchesCounter(e: Event) {
    e.BranchSeen? || e.PassBegin? || e.DriverRestart? || e.NodeReboot?
  }

  /** Records change only by a save or go; the counter changes only where it is used; a
      mount leaks only when undoing a seal fails. */
  ghost predicate Tame(s: State, e: Event, s': State) {
    && (forall id | id in s'.records && e != Saved(id, true) :: id in s.records && s'.records[id] == s.records[id])
    && (!TouchesCounter(e) ==> s'.stale == s.stale)
    && ((e.SealUndone? ==> e.ok) ==> s'.leaked <= s.leaked)
  }

  predicate IsPublish(e: Event) {
    e.MountBegin? || e.ShareBegin? || e.Saved? || e.ShareBound? || e.RolledBack?
  }

  predicate IsStart(e: Event) {
    e.Started? || e.Sealed? || e.SealUndone?
  }

  predicate IsUnpublish(e: Event) {
    e.UnmountBegin? || e.UnmountDetached? || e.UnmountStopped? || e.UnmountRemoved?
  }

  predicate IsRemount(e: Event) {
    e.Dropped? || e.RemountDetached? || e.RemountStopped? || e.RebindDetached? || e.RebindBound?
  }

  lemma PublishIsTame(cfg: Config, s: State, e: Event)
    requires Enabled(cfg, s, e) && IsPublish(e)
    ensures Tame(s, e, Apply(cfg, s, e))
  {}

  lemma StartIsTame(cfg: Config, s: State, id: Id, ok: bool)
    requires Enabled(cfg, s, Started(id, ok))
    ensures Tame(s, Started(id, ok), Apply(cfg, s, Started(id, ok)))
  {}

  lemma SealIsTame(cfg: Config, s: State, e: Event)
    requires Enabled(cfg, s, e) && (e.Sealed? || e.SealUndone?)
    ensures Tame(s, e, Apply(cfg, s, e))
  {}

  lemma UnpublishIsTame(cfg: Config, s: State, e: Event)
    requires Enabled(cfg, s, e) && IsUnpublish(e)
    ensures Tame(s, e, Apply(cfg, s, e))
  {}

  lemma RemountIsTame(cfg: Config, s: State, e: Event)
    requires Enabled(cfg, s, e) && IsRemount(e) && !e.RebindBound?
    ensures Tame(s, e, Apply(cfg, s, e))
  {}

  lemma RebindIsTame(cfg: Config, s: State, id: Id, ok: bool)
    requires Enabled(cfg, s, RebindBound(id, ok))
    ensures Tame(s, RebindBound(id, ok), Apply(cfg, s, RebindBound(id, ok)))
  {}

  lemma LookIsTame(cfg: Config, s: State, id: Id, sight: Sight)
    requires Enabled(cfg, s, BranchSeen(id, sight))
    ensures Tame(s, BranchSeen(id, sight), SeeBranch(s, id, sight))
  {}

  lemma OtherIsTame(cfg: Config, s: State, e: Event)
    requires Enabled(cfg, s, e) && !IsPublish(e) && !IsStart(e) && !IsUnpublish(e) && !IsRemount(e) && !e.BranchSeen?
    ensures Tame(s, e, Apply(cfg, s, e))
  {}

  lemma StepIsTame(cfg: Config, s: State, e: Event)
    requires Enabled(cfg, s, e)
    ensures Tame(s, e, Apply(cfg, s, e))
  {
    if IsPublish(e) {
      PublishIsTame(cfg, s, e);
    } else if e.Started? {
      StartIsTame(cfg, s, e.id, e.ok);
    } else if IsStart(e) {
      SealIsTame(cfg, s, e);
    } else if IsUnpublish(e) {
      UnpublishIsTame(cfg, s, e);
    } else if e.RebindBound? {
      RebindIsTame(cfg, s, e.id, e.ok);
    } else if IsRemount(e) {
      RemountIsTame(cfg, s, e);
    } else if e.BranchSeen? {
      LookIsTame(cfg, s, e.id, e.sight);
    } else {
      OtherIsTame(cfg, s, e);
    }
  }
}
