/** A publish looks at its target before it takes the lock (pkg/driver/node.go), so by the time
    it has the lock something may be mounted there: a reconcile of the volume had been between
    its unmount and its start when the publish looked. The backend does not look again
    (pkg/backend/mergerfs/mount_linux.go). Here the publish may begin over a mount, and what is
    mounted over a mount hides it until it is unmounted. */
module LatePublish {
  import opened Argv
  import opened Supervision
  import opened SupervisionSafety
  import opened SupervisionRuns

  /** The machine, and the mounts hidden at each target, uppermost first. */
  datatype Node = Node(s: State, below: map<Target, seq<Mount>>)

  function Hidden(n: Node, t: Target): seq<Mount> {
    if t in n.below then n.below[t] else []
  }

  /** A publish whose target is mounted by now. */
  predicate Late(cfg: Config, s: State, e: Event) {
    && (e.MountBegin? || e.ShareBegin?) && Idle(s, e.id) && FitsConfig(cfg, e.id, e.st)
    && (e.ShareBegin? <==> IsView(e.st)) && e.st.target in s.mounts
    && (e.ShareBegin? ==> Serving(cfg, s, e.st.sharedFrom))
  }

  /** Something is mounted over a mount. */
  predicate Covers(s: State, e: Event) {
    (e.Started? || e.ShareBound? || e.RebindBound?) && e.ok && e.id in s.ops
    && (s.ops[e.id].Start? || s.ops[e.id].ShareBind? || s.ops[e.id].RebindBind?) && s.ops[e.id].st.target in s.mounts
  }

  /** The uppermost mount of the volume is taken down. */
  predicate Uncovers(e: Event) {
    (e.UnmountDetached? || e.RemountDetached? || e.RebindDetached? || e.SealUndone?) && e.ok
  }

  /** A daemon that runs keeps a second one of its volume from starting over its mount. */
  predicate MayStep(cfg: Config, n: Node, e: Event) {
    || Late(cfg, n.s, e)
    || (Enabled(cfg, n.s, e) && !(e.Started? && Covers(n.s, e) && e.id in n.s.daemons))
  }

  function Step(cfg: Config, n: Node, e: Event): Node
    requires MayStep(cfg, n, e)
  {
    if Late(cfg, n.s, e) then n.(s := Become(n.s, e.id, if e.MountBegin? then MountSave(e.st) else ShareSave(e.st)))
    else
      var s' := Apply(cfg, n.s, e);
      if e.NodeReboot? then Node(s', map[])
      else if Covers(n.s, e) then
        var t := n.s.ops[e.id].st.target;
        Node(s', n.below[t := [n.s.mounts[t]] + Hidden(n, t)])
      else if Uncovers(e) && e.id in cfg.targetOf then Reveal(n.(s := s'), cfg.targetOf[e.id])
      else n.(s := s')
  }

  /** What was hidden at t comes up. */
  function Reveal(n: Node, t: Target): Node {
    if Hidden(n, t) == [] then n
    else Node(n.s.(mounts := n.s.mounts[t := Hidden(n, t)[0]]), n.below[t := Hidden(n, t)[1..]])
  }

  const START := Node(INITIAL, map[])

  ghost predicate LateRuns(cfg: Config, n: Node, es: seq<Event>)
    decreases |es|
  {
    es == [] || (MayStep(cfg, n, es[0]) && LateRuns(cfg, Step(cfg, n, es[0]), es[1..]))
  }

  ghost function LateAfter(cfg: Config, n: Node, es: seq<Event>): Node
    requires LateRuns(cfg, n, es)
    decreases |es|
  {
    if es == [] then n else LateAfter(cfg, Step(cfg, n, es[0]), es[1..])
  }

  // ---- what still holds ----

  /** What an operation relies on, whether or not something is mounted under a publish. */
  ghost predicate LateOpOk(cfg: Config, s: State, id: Id, t: Target, op: Op) {
    match op
    case MountSave(st) => FitsConfig(cfg, id, st) && !IsView(st)
    case ShareSave(st) => FitsConfig(cfg, id, st) && IsView(st)
    case ShareBind(st) => Holds(s, id, st) && IsView(st)
    case Start(st, publish) => Holds(s, id, st) && !IsView(st) && (!publish ==> id !in s.daemons)
    case Seal(st, _) => OnTop(s, id, t, st)
    case SealUndo(st, _) => OnTop(s, id, t, st)
    case Rollback(st) => FitsConfig(cfg, id, st)
    case UnmountDetach => true
    case UnmountStop => true
    case UnmountRemove => true
    case Drop(st) => t !in s.mounts
    case RemountDetach(st) => Holds(s, id, st) && !IsView(st) && Probe(s, t) == Dead
    case RemountStop(st) => Holds(s, id, st) && !IsView(st)
    case RebindDetach(st) => Holds(s, id, st) && IsView(st) && Probe(s, t) == Dead
    case RebindBind(st) => Holds(s, id, st) && IsView(st)
    case Repair(st, pid, next) => Holds(s, id, st)
  }

  /** The mount of the daemon just started is the uppermost one. */
  ghost predicate OnTop(s: State, id: Id, t: Target, st: Record) {
    Holds(s, id, st) && !IsView(st) && t in s.mounts && s.mounts[t].record == st && s.mounts[t].owner == id
  }

  ghost predicate OpsOk(cfg: Config, s: State, id: Id)
    requires id in cfg.targetOf
  {
    && (id in s.records ==> FitsConfig(cfg, id, s.records[id]))
    && (id in s.ops ==> LateOpOk(cfg, s, id, cfg.targetOf[id], s.ops[id]))
  }

  ghost predicate LateOk(cfg: Config, n: Node, id: Id)
    requires id in cfg.targetOf
  {
    OpsOk(cfg, n.s, id) && (Hidden(n, cfg.targetOf[id]) != [] ==> cfg.targetOf[id] in n.s.mounts)
  }

  /** No mount is of a process yet to be started. */
  ghost predicate OldMount(s: State) {
    forall t | t in s.mounts :: s.mounts[t].pid < s.nextPid
  }

  ghost predicate Old(n: Node) {
    OldMount(n.s) && forall t, i | t in n.below && 0 <= i < |n.below[t]| :: n.below[t][i].pid < n.s.nextPid
  }

  ghost predicate InScope(cfg: Config, s: State) {
    s.records.Keys <= cfg.targetOf.Keys && s.ops.Keys <= cfg.targetOf.Keys && s.daemons.Keys <= cfg.targetOf.Keys
  }

  ghost predicate LateInv(cfg: Config, n: Node) {
    InScope(cfg, n.s) && Old(n) && forall id | id in cfg.targetOf :: LateOk(cfg, n, id)
  }

  /** The daemon of mover is gone, is the same process, or is a new one. */
  ghost predicate DaemonMoves(s: State, s': State, mover: Id) {
    && s.nextPid <= s'.nextPid
    && (mover in s'.daemons ==>
          || s'.daemons[mover].pid >= s.nextPid
          || (mover in s.daemons && SameProcess(s.daemons[mover], s'.daemons[mover])))
  }

  /** Volumes other than mover, and what is at their targets, are as they were. */
  ghost predicate Spared(cfg: Config, s: State, s': State, mover: Id)
    requires mover in cfg.targetOf
  {
    && SameBut(s.records, s'.records, mover) && SameBut(s.ops, s'.ops, mover) && SameBut(s.daemons, s'.daemons, mover)
    && SameBut(s.mounts, s'.mounts, cfg.targetOf[mover]) && DaemonMoves(s, s', mover)
  }

  // ---- mounts without their record ----

  predicate Saves(op: Op) {
    op.MountSave? || op.ShareSave?
  }

  /** The step removes the record from under the uppermost mount, or puts another one over it. */
  ghost predicate Takes(cfg: Config, s: State, e: Event, id: Id)
    requires id in cfg.targetOf
  {
    var t := cfg.targetOf[id];
    t in s.mounts && (
      || e == RolledBack(id, true) || e == UnmountRemoved(id, true)
      || (e == Saved(id, true) && id in s.ops && Saves(s.ops[id]) && s.ops[id].st != s.mounts[t].record))
  }

  /** It does, or it brings up a mount that the record does not describe. */
  ghost predicate Unrecords(cfg: Config, n: Node, e: Event, id: Id)
    requires id in cfg.targetOf
  {
    var t := cfg.targetOf[id];
    || Takes(cfg, n.s, e, id)
    || (t in n.s.mounts && Uncovers(e) && e.id == id && Hidden(n, t) != [] && !Holds(n.s, id, Hidden(n, t)[0].record))
  }

  /** The step takes a mount of id away, mounts over one, or saves the record that describes it. */
  ghost predicate Settles(s: State, e: Event, id: Id) {
    e.NodeReboot? || (!Environment(e) && e.id == id && (Uncovers(e) || Covers(s, e) || e == Saved(id, true)))
  }

  /** From n to n' the uppermost mount of id is left without its record just so. */
  ghost predicate JustSo(cfg: Config, n: Node, e: Event, id: Id, n': Node)
    requires id in cfg.targetOf
  {
    !Recorded(cfg, n'.s, id) <==> Unrecords(cfg, n, e, id) || (!Recorded(cfg, n.s, id) && !Settles(n.s, e, id))
  }

  // ---- a step of a volume: what it does to the machine ----

  ghost predicate LateReady(cfg: Config, s: State, e: Event) {
    GoodConfig(cfg) && !Environment(e) && e.id in cfg.targetOf && OpsOk(cfg, s, e.id) && OldMount(s)
  }

  /** A step that mounts nothing over a mount and takes none down. */
  ghost predicate Plain(cfg: Config, s: State, e: Event) {
    LateReady(cfg, s, e) && Enabled(cfg, s, e) && !Covers(s, e) && !Uncovers(e)
  }

  ghost predicate PlainlyWell(cfg: Config, s: State, e: Event, s': State)
    requires !Environment(e) && e.id in cfg.targetOf
  {
    var id, t := e.id, cfg.targetOf[e.id];
    && Spared(cfg, s, s', id) && OpsOk(cfg, s', id) && (t in s.mounts ==> t in s'.mounts)
    && (!Recorded(cfg, s', id) <==> Takes(cfg, s, e, id) || (!Recorded(cfg, s, id) && e != Saved(id, true)))
  }

  lemma BeginGoesWell(cfg: Config, s: State, e: Event)
    requires Plain(cfg, s, e) && (e.MountBegin? || e.ShareBegin? || e.UnmountBegin? || e.RepairEnd?)
    ensures PlainlyWell(cfg, s, e, Apply(cfg, s, e))
  {}

  lemma SaveGoesWell(cfg: Config, s: State, id: Id, ok: bool)
    requires Plain(cfg, s, Saved(id, ok))
    ensures PlainlyWell(cfg, s, Saved(id, ok), Apply(cfg, s, Saved(id, ok)))
  {}

  lemma BoundGoesWell(cfg: Config, s: State, id: Id, ok: bool)
    requires Plain(cfg, s, ShareBound(id, ok))
    ensures PlainlyWell(cfg, s, ShareBound(id, ok), Apply(cfg, s, ShareBound(id, ok)))
  {}

  lemma ReboundGoesWell(cfg: Config, s: State, id: Id, ok: bool)
    requires Plain(cfg, s, RebindBound(id, ok))
    ensures PlainlyWell(cfg, s, RebindBound(id, ok), Apply(cfg, s, RebindBound(id, ok)))
  {}

  lemma StartedGoesWell(cfg: Config, s: State, id: Id)
    requires Plain(cfg, s, Started(id, true))
    ensures PlainlyWell(cfg, s, Started(id, true), Apply(cfg, s, Started(id, true)))
  {}

  lemma StartFails(cfg: Config, s: State, id: Id)
    requires Plain(cfg, s, Started(id, false))
    ensures PlainlyWell(cfg, s, Started(id, false), Apply(cfg, s, Started(id, false)))
  {}

  lemma SealedGoesWell(cfg: Config, s: State, id: Id, ok: bool)
    requires Plain(cfg, s, Sealed(id, ok))
    ensures PlainlyWell(cfg, s, Sealed(id, ok), Apply(cfg, s, Sealed(id, ok)))
  {}

  lemma UndoFails(cfg: Config, s: State, id: Id)
    requires Plain(cfg, s, SealUndone(id, false))
    ensures PlainlyWell(cfg, s, SealUndone(id, false), Apply(cfg, s, SealUndone(id, false)))
  {}

  lemma RolledBackGoesWell(cfg: Config, s: State, id: Id, ok: bool)
    requires Plain(cfg, s, RolledBack(id, ok))
    ensures PlainlyWell(cfg, s, RolledBack(id, ok), Apply(cfg, s, RolledBack(id, ok)))
  {}

  lemma RemovedGoesWell(cfg: Config, s: State, id: Id, ok: bool)
    requires Plain(cfg, s, UnmountRemoved(id, ok))
    ensures PlainlyWell(cfg, s, UnmountRemoved(id, ok), Apply(cfg, s, UnmountRemoved(id, ok)))
  {}

  lemma DroppedGoesWell(cfg: Config, s: State, id: Id, ok: bool)
    requires Plain(cfg, s, Dropped(id, ok))
    ensures PlainlyWell(cfg, s, Dropped(id, ok), Apply(cfg, s, Dropped(id, ok)))
  {}

  lemma ScopeGoesWell(cfg: Config, s: State, id: Id, ok: bool)
    requires Plain(cfg, s, UnmountStopped(id, ok))
    ensures PlainlyWell(cfg, s, UnmountStopped(id, ok), Apply(cfg, s, UnmountStopped(id, ok)))
  {}

  lemma StoppedGoesWell(cfg: Config, s: State, id: Id, ok: bool)
    requires Plain(cfg, s, RemountStopped(id, ok))
    ensures PlainlyWell(cfg, s, RemountStopped(id, ok), Apply(cfg, s, RemountStopped(id, ok)))
  {}

  lemma StaysGoesWell(cfg: Config, s: State, e: Event)
    requires Plain(cfg, s, e) && (e.UnmountDetached? || e.RemountDetached? || e.RebindDetached?)
    ensures PlainlyWell(cfg, s, e, Apply(cfg, s, e))
  {}

  lemma ReconcileGoesWell(cfg: Config, s: State, id: Id, seen: Probed)
    requires Plain(cfg, s, ReconcileBegin(id, seen))
    ensures PlainlyWell(cfg, s, ReconcileBegin(id, seen), BeginReconcile(cfg, s, id, seen))
  {
    OnlyBegins(cfg, s, id, seen);
    if id in s.records && seen != Other {
      BeginsWell(cfg, s, id, seen);
    }
  }

  lemma OnlyBegins(cfg: Config, s: State, id: Id, seen: Probed)
    requires id !in s.ops
    ensures var s' := BeginReconcile(cfg, s, id, seen);
            s' == s.(ops := s'.ops) && SameBut(s.ops, s'.ops, id) && (id !in s.records || seen == Other ==> s' == s)
  {}

  lemma BeginsWell(cfg: Config, s: State, id: Id, seen: Probed)
    requires id in cfg.targetOf && id in s.records && FitsConfig(cfg, id, s.records[id]) && Idle(s, id)
    requires Probe(s, s.records[id].target) == seen != Other
    ensures var s' := BeginReconcile(cfg, s, id, seen);
            id in s'.ops ==> LateOpOk(cfg, s', id, cfg.targetOf[id], s'.ops[id])
  {}

  lemma LookGoesWell(cfg: Config, s: State, id: Id, sight: Sight)
    requires Plain(cfg, s, BranchSeen(id, sight))
    ensures PlainlyWell(cfg, s, BranchSeen(id, sight), SeeBranch(s, id, sight))
  {
    LookingMountsNothing(s, id, sight);
  }

  lemma ExitGoesWell(cfg: Config, s: State, id: Id)
    requires Plain(cfg, s, DaemonExit(id))
    ensures PlainlyWell(cfg, s, DaemonExit(id), Apply(cfg, s, DaemonExit(id)))
  {}

  lemma DaemonGoesWell(cfg: Config, s: State, e: Event)
    requires Plain(cfg, s, e) && (e.DaemonStuck? || e.DaemonCut?)
    ensures PlainlyWell(cfg, s, e, Apply(cfg, s, e))
  {}

  lemma PlainGoesWell(cfg: Config, s: State, e: Event)
    requires Plain(cfg, s, e)
    ensures PlainlyWell(cfg, s, e, Apply(cfg, s, e))
  {
    if e.MountBegin? || e.ShareBegin? || e.UnmountBegin? || e.RepairEnd? {
      BeginGoesWell(cfg, s, e);
    } else if e.Saved? {
      SaveGoesWell(cfg, s, e.id, e.ok);
    } else if e.ShareBound? {
      BoundGoesWell(cfg, s, e.id, e.ok);
    } else if e.RebindBound? {
      ReboundGoesWell(cfg, s, e.id, e.ok);
    } else if e.Started? {
      if e.ok {
        StartedGoesWell(cfg, s, e.id);
      } else {
        StartFails(cfg, s, e.id);
      }
    } else if e.Sealed? {
      SealedGoesWell(cfg, s, e.id, e.ok);
    } else if e.SealUndone? {
      UndoFails(cfg, s, e.id);
    } else if e.RolledBack? {
      RolledBackGoesWell(cfg, s, e.id, e.ok);
    } else if e.UnmountRemoved? {
      RemovedGoesWell(cfg, s, e.id, e.ok);
    } else if e.Dropped? {
      DroppedGoesWell(cfg, s, e.id, e.ok);
    } else if e.UnmountStopped? {
      ScopeGoesWell(cfg, s, e.id, e.ok);
    } else if e.RemountStopped? {
      StoppedGoesWell(cfg, s, e.id, e.ok);
    } else if IsUnpublish(e) || IsRemount(e) {
      StaysGoesWell(cfg, s, e);
    } else if e.ReconcileBegin? {
      ReconcileGoesWell(cfg, s, e.id, e.seen);
    } else if e.BranchSeen? {
      LookGoesWell(cfg, s, e.id, e.sight);
    } else if e.DaemonExit? {
      ExitGoesWell(cfg, s, e.id);
    } else {
      DaemonGoesWell(cfg, s, e);
    }
  }

  /** What is mounted over a mount has its record. */
  lemma CoveringGoesWell(cfg: Config, s: State, e: Event)
    requires LateReady(cfg, s, e) && Enabled(cfg, s, e) && Covers(s, e)
    ensures var s', t := Apply(cfg, s, e), cfg.targetOf[e.id];
            Spared(cfg, s, s', e.id) && OpsOk(cfg, s', e.id) && t in s'.mounts && Recorded(cfg, s', e.id)
    ensures s.ops[e.id].st.target == cfg.targetOf[e.id]
  {}

  /** An operation that relies on nothing about mounts. */
  predicate Blind(op: Op) {
    op.UnmountStop? || op.RemountStop? || op.RebindBind? || op.Rollback?
  }

  lemma DetachGoesWell(cfg: Config, s: State, e: Event)
    requires LateReady(cfg, s, e) && Enabled(cfg, s, e) && Uncovers(e) && !e.SealUndone?
    ensures var s' := Apply(cfg, s, e);
            && Spared(cfg, s, s', e.id) && OpsOk(cfg, s', e.id) && s'.records == s.records
            && cfg.targetOf[e.id] !in s'.mounts && (e.id in s'.ops ==> Blind(s'.ops[e.id]))
  {}

  lemma UndoGoesWell(cfg: Config, s: State, id: Id)
    requires LateReady(cfg, s, SealUndone(id, true)) && Enabled(cfg, s, SealUndone(id, true))
    ensures var s' := Apply(cfg, s, SealUndone(id, true));
            && Spared(cfg, s, s', id) && OpsOk(cfg, s', id) && s'.records == s.records
            && cfg.targetOf[id] !in s'.mounts && (id in s'.ops ==> Blind(s'.ops[id]))
  {}

  // ---- and what it does to the node ----

  /** What a step of a volume does to it and to the others. */
  ghost predicate GoesWell(cfg: Config, n: Node, e: Event, n': Node)
    requires !Environment(e) && e.id in cfg.targetOf
  {
    && Spared(cfg, n.s, n'.s, e.id) && SameBut(n.below, n'.below, cfg.targetOf[e.id])
    && LateOk(cfg, n', e.id) && JustSo(cfg, n, e, e.id, n')
  }

  lemma PlainLifts(cfg: Config, n: Node, e: Event, s': State)
    requires !Environment(e) && e.id in cfg.targetOf && LateOk(cfg, n, e.id)
    requires !Covers(n.s, e) && !Uncovers(e) && PlainlyWell(cfg, n.s, e, s')
    ensures GoesWell(cfg, n, e, n.(s := s'))
  {}

  lemma CoveringLifts(cfg: Config, n: Node, e: Event, s': State, up: seq<Mount>)
    requires !Environment(e) && e.id in cfg.targetOf && Covers(n.s, e) && Spared(cfg, n.s, s', e.id)
    requires OpsOk(cfg, s', e.id) && cfg.targetOf[e.id] in s'.mounts && Recorded(cfg, s', e.id)
    ensures GoesWell(cfg, n, e, Node(s', n.below[cfg.targetOf[e.id] := up]))
  {}

  lemma RevealLifts(cfg: Config, n: Node, e: Event, s': State)
    requires !Environment(e) && e.id in cfg.targetOf && LateOk(cfg, n, e.id) && Uncovers(e)
    requires Spared(cfg, n.s, s', e.id) && OpsOk(cfg, s', e.id) && s'.records == n.s.records
    requires cfg.targetOf[e.id] !in s'.mounts && (e.id in s'.ops ==> Blind(s'.ops[e.id]))
    ensures GoesWell(cfg, n, e, Reveal(n.(s := s'), cfg.targetOf[e.id]))
  {}

  lemma LateGoesWell(cfg: Config, n: Node, e: Event)
    requires !Environment(e) && e.id in cfg.targetOf && LateOk(cfg, n, e.id) && Late(cfg, n.s, e)
    ensures GoesWell(cfg, n, e, Step(cfg, n, e))
  {}

  lemma UncoveringGoesWell(cfg: Config, n: Node, e: Event)
    requires LateReady(cfg, n.s, e) && LateOk(cfg, n, e.id) && Enabled(cfg, n.s, e) && Uncovers(e)
    ensures GoesWell(cfg, n, e, Reveal(n.(s := Apply(cfg, n.s, e)), cfg.targetOf[e.id]))
  {
    if e.SealUndone? {
      UndoGoesWell(cfg, n.s, e.id);
    } else {
      DetachGoesWell(cfg, n.s, e);
    }
    RevealLifts(cfg, n, e, Apply(cfg, n.s, e));
  }

  lemma VolumeGoesWell(cfg: Config, n: Node, e: Event)
    requires LateReady(cfg, n.s, e) && LateOk(cfg, n, e.id) && MayStep(cfg, n, e)
    ensures GoesWell(cfg, n, e, Step(cfg, n, e))
  {
    if Late(cfg, n.s, e) {
      LateGoesWell(cfg, n, e);
    } else if Covers(n.s, e) {
      CoveringGoesWell(cfg, n.s, e);
      var t := n.s.ops[e.id].st.target;
      CoveringLifts(cfg, n, e, Apply(cfg, n.s, e), [n.s.mounts[t]] + Hidden(n, t));
    } else if Uncovers(e) {
      UncoveringGoesWell(cfg, n, e);
    } else {
      PlainGoesWell(cfg, n.s, e);
      PlainLifts(cfg, n, e, Apply(cfg, n.s, e));
    }
  }

  /** Nothing of volume id changed, and no process of its mount came back. */
  ghost predicate Same(cfg: Config, s: State, s': State, id: Id)
    requires id in cfg.targetOf
  {
    var t := cfg.targetOf[id];
    && (t in s.mounts <==> t in s'.mounts) && (t in s.mounts ==> s'.mounts[t] == s.mounts[t])
    && (id in s.records <==> id in s'.records) && (id in s.records ==> s'.records[id] == s.records[id])
    && (id in s.ops <==> id in s'.ops) && (id in s.ops ==> s'.ops[id] == s.ops[id])
    && (id in s.daemons <==> id in s'.daemons) && (Probe(s, t) == Dead ==> Probe(s', t) == Dead)
  }

  lemma OthersAreSame(cfg: Config, s: State, s': State, mover: Id, id: Id)
    requires GoodConfig(cfg) && mover in cfg.targetOf && id in cfg.targetOf && id != mover
    requires Spared(cfg, s, s', mover) && OldMount(s)
    ensures Same(cfg, s, s', id)
  {
    var t := cfg.targetOf[id];
    assert t in s.mounts <==> t in s'.mounts;
    if t in s.mounts {
      var owner := s.mounts[t].owner;
      assert owner != mover ==> (owner in s.daemons <==> owner in s'.daemons);
    }
  }

  lemma OthersStayOk(cfg: Config, s: State, s': State, id: Id)
    requires id in cfg.targetOf && OpsOk(cfg, s, id) && Same(cfg, s, s', id)
    ensures OpsOk(cfg, s', id)
  {}

  lemma OthersGoOn(cfg: Config, n: Node, e: Event, n': Node, id: Id)
    requires GoodConfig(cfg) && !Environment(e) && e.id in cfg.targetOf && id in cfg.targetOf && id != e.id
    requires LateOk(cfg, n, id) && GoesWell(cfg, n, e, n') && OldMount(n.s)
    ensures LateOk(cfg, n', id) && JustSo(cfg, n, e, id, n')
  {
    var t := cfg.targetOf[id];
    OthersAreSame(cfg, n.s, n'.s, e.id, id);
    OthersStayOk(cfg, n.s, n'.s, id);
    assert t in n.below <==> t in n'.below;
  }

  lemma EnvironmentGoesOn(cfg: Config, s: State, e: Event, id: Id)
    requires Environment(e) && Enabled(cfg, s, e) && id in cfg.targetOf && OpsOk(cfg, s, id)
    ensures var s' := Apply(cfg, s, e);
            && OpsOk(cfg, s', id) && (if e.NodeReboot? then s'.mounts == map[] else s'.mounts == s.mounts)
            && s'.records == s.records
  {}

  lemma EnvironmentStep(cfg: Config, n: Node, e: Event)
    requires Environment(e) && MayStep(cfg, n, e)
    ensures Enabled(cfg, n.s, e)
    ensures Step(cfg, n, e) == Node(Apply(cfg, n.s, e), if e.NodeReboot? then map[] else n.below)
  {}

  lemma EnvironmentLifts(cfg: Config, n: Node, e: Event, n': Node, id: Id)
    requires Environment(e) && id in cfg.targetOf && LateOk(cfg, n, id) && OpsOk(cfg, n'.s, id)
    requires n'.s.records == n.s.records
    requires if e.NodeReboot? then n'.below == map[] && n'.s.mounts == map[]
             else n'.below == n.below && n'.s.mounts == n.s.mounts
    ensures LateOk(cfg, n', id) && JustSo(cfg, n, e, id, n')
  {}

  lemma StrangerGoesOn(cfg: Config, n: Node, e: Event)
    requires InScope(cfg, n.s) && !Environment(e) && e.id !in cfg.targetOf && MayStep(cfg, n, e)
    ensures Step(cfg, n, e) == n
  {
    assert e.id !in n.s.ops && e.id !in n.s.records && e.id !in n.s.daemons;
  }

  lemma StrangerIsNobody(cfg: Config, n: Node, e: Event, id: Id)
    requires !Environment(e) && e.id !in cfg.targetOf && id in cfg.targetOf
    ensures JustSo(cfg, n, e, id, n)
  {}

  lemma StepGoesWell(cfg: Config, n: Node, e: Event, id: Id)
    requires GoodConfig(cfg) && LateInv(cfg, n) && MayStep(cfg, n, e) && id in cfg.targetOf
    ensures LateOk(cfg, Step(cfg, n, e), id) && JustSo(cfg, n, e, id, Step(cfg, n, e))
  {
    assert LateOk(cfg, n, id);
    if Environment(e) {
      EnvironmentStep(cfg, n, e);
      EnvironmentGoesOn(cfg, n.s, e, id);
      EnvironmentLifts(cfg, n, e, Step(cfg, n, e), id);
    } else if e.id !in cfg.targetOf {
      StrangerGoesOn(cfg, n, e);
      StrangerIsNobody(cfg, n, e, id);
    } else {
      assert LateOk(cfg, n, e.id);
      VolumeGoesWell(cfg, n, e);
      if e.id != id {
        OthersGoOn(cfg, n, e, Step(cfg, n, e), id);
      }
    }
  }

  // ---- what holds of the node as a whole ----

  lemma ApplyKeepsOld(cfg: Config, s: State, e: Event)
    requires Enabled(cfg, s, e) && OldMount(s)
    ensures s.nextPid <= Apply(cfg, s, e).nextPid && OldMount(Apply(cfg, s, e))
  {
    if e.ShareBound? || e.RebindBound? {
      BindKeepsOld(cfg, s, e);
    } else if e.Started? {
      StartKeepsOld(cfg, s, e.id, e.ok);
    } else if IsStart(e) {
      SealKeepsOld(cfg, s, e);
    } else if IsPublish(e) {
      PublishKeepsOld(cfg, s, e);
    } else if IsUnpublish(e) {
      UnpublishKeepsOld(cfg, s, e);
    } else if IsRemount(e) {
      RemountKeepsOld(cfg, s, e);
    } else if !Environment(e) {
      MountsStay(cfg, s, e);
    }
  }

  lemma PublishKeepsOld(cfg: Config, s: State, e: Event)
    requires Enabled(cfg, s, e) && OldMount(s) && IsPublish(e) && !e.ShareBound?
    ensures s.nextPid == Apply(cfg, s, e).nextPid && OldMount(Apply(cfg, s, e))
  {}

  lemma BindKeepsOld(cfg: Config, s: State, e: Event)
    requires Enabled(cfg, s, e) && OldMount(s) && (e.ShareBound? || e.RebindBound?)
    ensures s.nextPid == Apply(cfg, s, e).nextPid && OldMount(Apply(cfg, s, e))
  {}

  lemma StartKeepsOld(cfg: Config, s: State, id: Id, ok: bool)
    requires Enabled(cfg, s, Started(id, ok)) && OldMount(s)
    ensures var s' := Apply(cfg, s, Started(id, ok)); s.nextPid <= s'.nextPid && OldMount(s')
  {}

  lemma SealKeepsOld(cfg: Config, s: State, e: Event)
    requires Enabled(cfg, s, e) && OldMount(s) && (e.Sealed? || e.SealUndone?)
    ensures s.nextPid == Apply(cfg, s, e).nextPid && OldMount(Apply(cfg, s, e))
  {}

  lemma UnpublishKeepsOld(cfg: Config, s: State, e: Event)
    requires Enabled(cfg, s, e) && OldMount(s) && IsUnpublish(e)
    ensures s.nextPid == Apply(cfg, s, e).nextPid && OldMount(Apply(cfg, s, e))
  {}

  lemma RemountKeepsOld(cfg: Config, s: State, e: Event)
    requires Enabled(cfg, s, e) && OldMount(s) && IsRemount(e) && !e.RebindBound?
    ensures s.nextPid == Apply(cfg, s, e).nextPid && OldMount(Apply(cfg, s, e))
  {}

  lemma RevealKeepsOld(n: Node, t: Target)
    requires Old(n)
    ensures Old(Reveal(n, t))
  {}

  lemma CoverKeepsOld(n: Node, s': State, t: Target)
    requires Old(n) && OldMount(s') && n.s.nextPid <= s'.nextPid && t in n.s.mounts
    ensures Old(Node(s', n.below[t := [n.s.mounts[t]] + Hidden(n, t)]))
  {}

  lemma StepKeepsOld(cfg: Config, n: Node, e: Event)
    requires Old(n) && MayStep(cfg, n, e)
    ensures Old(Step(cfg, n, e))
  {
    if !Late(cfg, n.s, e) {
      var s' := Apply(cfg, n.s, e);
      ApplyKeepsOld(cfg, n.s, e);
      if Covers(n.s, e) {
        CoverKeepsOld(n, s', n.s.ops[e.id].st.target);
      } else if Uncovers(e) && e.id in cfg.targetOf {
        RevealKeepsOld(n.(s := s'), cfg.targetOf[e.id]);
      }
    }
  }

  lemma SparedInScope(cfg: Config, s: State, s': State, mover: Id)
    requires InScope(cfg, s) && mover in cfg.targetOf && Spared(cfg, s, s', mover)
    ensures InScope(cfg, s')
  {
    forall x | x in s'.records ensures x in cfg.targetOf {
      assert x != mover ==> x in s.records;
    }
    forall x | x in s'.ops ensures x in cfg.targetOf {
      assert x != mover ==> x in s.ops;
    }
    forall x | x in s'.daemons ensures x in cfg.targetOf {
      assert x != mover ==> x in s.daemons;
    }
  }

  lemma EnvironmentInScope(cfg: Config, s: State, e: Event)
    requires InScope(cfg, s) && Environment(e) && Enabled(cfg, s, e)
    ensures InScope(cfg, Apply(cfg, s, e))
  {}

  lemma StepKeepsScope(cfg: Config, n: Node, e: Event)
    requires GoodConfig(cfg) && LateInv(cfg, n) && MayStep(cfg, n, e)
    ensures InScope(cfg, Step(cfg, n, e).s)
  {
    if Environment(e) {
      EnvironmentStep(cfg, n, e);
      EnvironmentInScope(cfg, n.s, e);
    } else if e.id !in cfg.targetOf {
      StrangerGoesOn(cfg, n, e);
    } else {
      assert LateOk(cfg, n, e.id);
      VolumeGoesWell(cfg, n, e);
      SparedInScope(cfg, n.s, Step(cfg, n, e).s, e.id);
    }
  }

  lemma StepKeepsLateInv(cfg: Config, n: Node, e: Event)
    requires GoodConfig(cfg) && LateInv(cfg, n) && MayStep(cfg, n, e)
    ensures LateInv(cfg, Step(cfg, n, e))
  {
    StepKeepsScope(cfg, n, e);
    StepKeepsOld(cfg, n, e);
    forall id | id in cfg.targetOf ensures LateOk(cfg, Step(cfg, n, e), id) {
      StepGoesWell(cfg, n, e, id);
    }
  }

  // ---- over runs ----

  lemma {:induction false} RunKeepsLateInv(cfg: Config, n: Node, es: seq<Event>)
    requires GoodConfig(cfg) && LateInv(cfg, n) && LateRuns(cfg, n, es)
    ensures LateInv(cfg, LateAfter(cfg, n, es))
    decreases |es|
  {
    if es != [] {
      StepKeepsLateInv(cfg, n, es[0]);
      RunKeepsLateInv(cfg, Step(cfg, n, es[0]), es[1..]);
    }
  }

  /** Some step of the run takes the record from the mount of id, and no later step settles
      that. */
  ghost predicate Unsettled(cfg: Config, n: Node, es: seq<Event>, id: Id)
    requires id in cfg.targetOf && LateRuns(cfg, n, es)
    decreases |es|
  {
    es != [] && (
      || (Unrecords(cfg, n, es[0], id) && NeverSettled(cfg, Step(cfg, n, es[0]), es[1..], id))
      || Unsettled(cfg, Step(cfg, n, es[0]), es[1..], id))
  }

  ghost predicate NeverSettled(cfg: Config, n: Node, es: seq<Event>, id: Id)
    requires id in cfg.targetOf && LateRuns(cfg, n, es)
    decreases |es|
  {
    es == [] || (!Settles(n.s, es[0], id) && NeverSettled(cfg, Step(cfg, n, es[0]), es[1..], id))
  }

  lemma {:induction false} LateWriteAhead(cfg: Config, n: Node, es: seq<Event>, id: Id)
    requires GoodConfig(cfg) && LateInv(cfg, n) && LateRuns(cfg, n, es) && id in cfg.targetOf
    ensures !Recorded(cfg, LateAfter(cfg, n, es).s, id) <==>
              Unsettled(cfg, n, es, id) || (!Recorded(cfg, n.s, id) && NeverSettled(cfg, n, es, id))
    decreases |es|
  {
    if es != [] {
      StepGoesWell(cfg, n, es[0], id);
      StepKeepsLateInv(cfg, n, es[0]);
      LateWriteAhead(cfg, Step(cfg, n, es[0]), es[1..], id);
    }
  }

  /** At the end of every run, late publishes and mounts over mounts included, the stored record
      describes the uppermost mount of a target if and only if no step has taken the record from
      it, by removing it, by saving another one or by bringing up a mount of another record,
      without a later step settling that. */
  lemma WriteAheadIff(cfg: Config, es: seq<Event>, id: Id)
    requires GoodConfig(cfg) && LateRuns(cfg, START, es) && id in cfg.targetOf
    ensures Recorded(cfg, LateAfter(cfg, START, es).s, id) <==> !Unsettled(cfg, START, es, id)
  {
    LateWriteAhead(cfg, START, es, id);
  }

  // ---- runs without late publishes ----

  /** A run of the protocol is a run here, with the same states: where publishes begin on time
      nothing is ever mounted over a mount. */
  lemma {:induction false} OnTimeRuns(cfg: Config, s: State, es: seq<Event>)
    requires GoodConfig(cfg) && Inv(cfg, s) && Runs(cfg, s, es)
    ensures LateRuns(cfg, Node(s, map[]), es) && LateAfter(cfg, Node(s, map[]), es) == Node(After(cfg, s, es), map[])
    decreases |es|
  {
    if es != [] {
      OnTimeStep(cfg, s, es[0]);
      StepKeepsInv(cfg, s, es[0]);
      OnTimeRuns(cfg, Apply(cfg, s, es[0]), es[1..]);
    }
  }

  lemma OnTimeStep(cfg: Config, s: State, e: Event)
    requires GoodConfig(cfg) && Inv(cfg, s) && Enabled(cfg, s, e)
    ensures MayStep(cfg, Node(s, map[]), e) && Step(cfg, Node(s, map[]), e) == Node(Apply(cfg, s, e), map[])
  {
    if e.MountBegin? || e.ShareBegin? {
      NotLate(cfg, s, e);
    } else if e.Started? || e.ShareBound? || e.RebindBound? {
      CoversNothing(cfg, s, e);
    }
  }

  lemma NotLate(cfg: Config, s: State, e: Event)
    requires (e.MountBegin? || e.ShareBegin?) && Enabled(cfg, s, e)
    ensures !Late(cfg, s, e) && !Covers(s, e)
  {}

  lemma CoversNothing(cfg: Config, s: State, e: Event)
    requires (e.Started? || e.ShareBound? || e.RebindBound?) && Inv(cfg, s) && Enabled(cfg, s, e)
    ensures !Late(cfg, s, e) && !Covers(s, e)
  {
    assert VolumeOk(cfg, s, e.id);
  }
}
