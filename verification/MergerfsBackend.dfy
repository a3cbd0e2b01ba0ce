/** The mergerfs backend as the object it is: methods that change the record store, the
    mount table, the daemons and the stale counters one effect after the other
    (pkg/backend/mergerfs/mount_linux.go, reconcile_linux.go, probe_linux.go).

    Every method is proved to be a run of the supervision protocol, so what holds of all
    runs holds of it at every point at which the driver may die. */
module MergerfsBackend {
  import opened MountSpecs
  import opened Argv
  import opened Stale
  import opened Supervision
  import opened SupervisionSafety
  import opened SupervisionRuns
  import opened SupervisionConvergence
  import opened SupervisionPasses

  /** Whether the operations of one call succeed. */
  datatype Outcome = Outcome(
    save: bool, start: bool, seal: bool, undo: bool, detach: bool, stop: bool, bind: bool, remove: bool)

  const ALL_WELL := Outcome(true, true, true, true, true, true, true, true)

  /** Every publish among the events is of id, as a view of source ("" for a mount of its own). */
  ghost predicate Begins(es: seq<Event>, id: Id, source: Target) {
    forall e | e in es && (e.MountBegin? || e.ShareBegin?) :: e.id == id && e.st.sharedFrom == source
  }

  ghost predicate BeginsNone(es: seq<Event>) {
    forall e | e in es :: !e.MountBegin? && !e.ShareBegin?
  }

  lemma BeginsThenNone(a: seq<Event>, b: seq<Event>, id: Id, source: Target)
    requires BeginsNone(b)
    ensures BeginsNone(a) ==> BeginsNone(a + b)
    ensures Begins(a, id, source) ==> Begins(a + b, id, source)
  {}

  class Backend {
    const cfg: Config
    var records: map<Id, Record>
    var dirs: set<Target>
    var mounts: map<Target, Mount>
    var daemons: map<Id, Daemon>
    var nextPid: nat
    const stale: StaleCounter
    ghost var ops: map<Id, Op>
    ghost var leaked: set<Target>

    ghost function World(): State
      reads this, stale
    {
      State(records, dirs, mounts, daemons, nextPid, ops, stale.runs, leaked)
    }

    ghost predicate Valid()
      reads this, stale
    {
      stale.Valid() && GoodConfig(cfg) && Inv(cfg, World())
    }

    constructor (cfg: Config)
      requires GoodConfig(cfg)
      ensures Valid() && this.cfg == cfg && World() == INITIAL && fresh(stale)
    {
      this.cfg := cfg;
      records, dirs, mounts, daemons, nextPid := map[], {}, map[], map[], 1;
      stale := new StaleCounter();
      ops, leaked := map[], {};
      new;
      InitialInv(cfg);
    }

    // ---- single effects ----

    ghost method Acquire(e: Event)
      requires (e.MountBegin? || e.ShareBegin? || e.UnmountBegin? || e.ReconcileBegin?) && Enabled(cfg, World(), e)
      modifies this`ops
      ensures World() == Apply(cfg, old(World()), e)
    {
      ops := Apply(cfg, World(), e).ops;
    }

    method SaveRecord(st: Record, ok: bool)
      requires Enabled(cfg, World(), Saved(st.volumeID, ok)) && ops[st.volumeID].st == st
      modifies this
      ensures World() == Apply(cfg, old(World()), Saved(st.volumeID, ok))
    {
      ghost var id, op := st.volumeID, ops[st.volumeID];
      if ok {
        records := records[st.volumeID := st];
        ops := ops[id := if op.MountSave? then Start(st, true) else ShareBind(st)];
      } else {
        ops := ops - {id};
      }
    }

    method RemoveRecord(id: Id, ok: bool, ghost e: Event)
      requires e == RolledBack(id, ok) || e == Dropped(id, ok) || e == UnmountRemoved(id, ok)
      requires Enabled(cfg, World(), e)
      modifies this
      ensures World() == Apply(cfg, old(World()), e)
    {
      if ok {
        records := records - {id};
      }
      ops := ops - {id};
    }

    method Launch(st: Record, ok: bool)
      requires Enabled(cfg, World(), Started(st.volumeID, ok)) && ops[st.volumeID].st == st
      modifies this
      ensures World() == Apply(cfg, old(World()), Started(st.volumeID, ok))
    {
      ghost var id, publish := st.volumeID, ops[st.volumeID].publish;
      if ok {
        daemons := daemons[st.volumeID := Daemon(nextPid, st, Clones(st.branches), false, false)];
        mounts := mounts[st.target := Mount(st, st.volumeID, nextPid, false)];
        nextPid := nextPid + 1;
        ops := if cfg.seal then ops[id := Seal(st, publish)] else ops - {id};
      } else {
        ops := if publish then ops[id := Rollback(st)] else ops - {id};
      }
    }

    method SealControl(st: Record, ok: bool)
      requires Enabled(cfg, World(), Sealed(st.volumeID, ok)) && ops[st.volumeID].st == st && st.target in mounts
      modifies this
      ensures World() == Apply(cfg, old(World()), Sealed(st.volumeID, ok))
    {
      ghost var id, publish := st.volumeID, ops[st.volumeID].publish;
      if ok {
        mounts := mounts[st.target := mounts[st.target].(sealed := true)];
        ops := ops - {id};
      } else {
        ops := ops[id := SealUndo(st, publish)];
      }
    }

    method UndoSeal(st: Record, ok: bool)
      requires Enabled(cfg, World(), SealUndone(st.volumeID, ok)) && ops[st.volumeID].st == st
      modifies this
      ensures World() == Apply(cfg, old(World()), SealUndone(st.volumeID, ok))
    {
      ghost var id, publish := st.volumeID, ops[st.volumeID].publish;
      if ok {
        mounts := mounts - {st.target};
      } else {
        leaked := if publish then leaked + {st.target} else leaked;
      }
      daemons := daemons - {st.volumeID};
      ops := if publish then ops[id := Rollback(st)] else ops - {id};
    }

    method Unmount(id: Id, t: Target, ok: bool, ghost e: Event)
      requires e == UnmountDetached(id, ok) || e == RemountDetached(id, ok) || e == RebindDetached(id, ok)
      requires Enabled(cfg, World(), e) && t == (if ops[id].UnmountDetach? then cfg.targetOf[id] else ops[id].st.target)
      modifies this
      ensures World() == Apply(cfg, old(World()), e)
    {
      ghost var op := ops[id];
      if ok {
        mounts, leaked := mounts - {t}, leaked - {t};
        ops := ops[id := if op.UnmountDetach? then UnmountStop else if op.RemountDetach? then RemountStop(op.st)
            else RebindBind(op.st)];
      } else {
        ops := ops - {id};
      }
    }

    method StopScope(id: Id, ok: bool, ghost e: Event)
      requires e == UnmountStopped(id, ok) || e == RemountStopped(id, ok)
      requires Enabled(cfg, World(), e)
      modifies this
      ensures World() == Apply(cfg, old(World()), e)
    {
      ghost var op := ops[id];
      if ok {
        daemons := daemons - {id};
      }
      ops := if op.UnmountStop? then ops[id := UnmountRemove] else if ok then ops[id := Start(op.st, false)]
          else ops - {id};
    }

    method Bind(st: Record, ok: bool, ghost e: Event)
      requires e == ShareBound(st.volumeID, ok) || e == RebindBound(st.volumeID, ok)
      requires Enabled(cfg, World(), e) && ops[st.volumeID].st == st
      modifies this
      ensures World() == Apply(cfg, old(World()), e)
    {
      ghost var id := st.volumeID;
      if ok {
        mounts := mounts[st.target := mounts[st.sharedFrom].(record := st)];
      }
      ops := if !ok && e.ShareBound? then ops[id := Rollback(st)] else ops - {id};
    }

    // ---- the operations ----

    /** The control file is sealed, or the fresh mount taken down again. */
    method SealOrUndo(st: Record, ghost publish: bool, o: Outcome) returns (ghost es: seq<Event>)
      requires cfg.seal && st.volumeID in ops && ops[st.volumeID] == Seal(st, publish) && st.target in mounts
      modifies this
      ensures RunsTo(cfg, old(World()), es, World())
      ensures BeginsNone(es)
      ensures o.seal ==> es == [Sealed(st.volumeID, true)]
      ensures o.seal || !publish ==> st.volumeID !in ops
      ensures !o.seal && publish ==> st.volumeID in ops && ops[st.volumeID] == Rollback(st)
      ensures records == old(records) && (!o.seal && o.undo ==> st.target !in mounts)
    {
      ghost var id, s0 := st.volumeID, World();
      SealControl(st, o.seal);
      es := [Sealed(id, o.seal)];
      RunsOne(cfg, s0, Sealed(id, o.seal));
      if !o.seal {
        ghost var s1 := World();
        UndoSeal(st, o.undo);
        Extend(cfg, s0, es, s1, SealUndone(id, o.undo));
        es := es + [SealUndone(id, o.undo)];
      }
    }

    /** startDaemon: a daemon, and its control file sealed before anyone can use it. */
    method StartDaemon(st: Record, ghost publish: bool, o: Outcome) returns (ok: bool, ghost es: seq<Event>)
      requires st.volumeID in ops && ops[st.volumeID] == Start(st, publish)
      modifies this
      ensures RunsTo(cfg, old(World()), es, World())
      ensures BeginsNone(es)
      ensures ok <==> o.start && st.target in old(dirs) && (cfg.seal ==> o.seal)
      ensures ok ==> es == [Started(st.volumeID, true)] + SealSteps(cfg, st.volumeID)
      ensures ok || !publish ==> st.volumeID !in ops
      ensures !ok && publish ==> st.volumeID in ops && ops[st.volumeID] == Rollback(st)
      ensures records == old(records) && (!ok && o.undo ==> st.target !in mounts || st.target in old(mounts))
    {
      ghost var id, s0 := st.volumeID, World();
      ok := o.start && st.target in dirs;
      Launch(st, ok);
      es := [Started(id, ok)];
      RunsOne(cfg, s0, Started(id, ok));
      if ok && cfg.seal {
        ok := o.seal;
        ghost var s1 := World();
        ghost var tail := SealOrUndo(st, publish, o);
        RunsAppend(cfg, s0, es, s1, tail, World());
        BeginsThenNone(es, tail, id, "");
        es := es + tail;
      }
    }

    /** mountUnion: save, start, and forget the record again if that fails. */
    method MountUnion(spec: MountSpec, sandbox: bool, o: Outcome) returns (ok: bool, ghost es: seq<Event>)
      requires Valid() && spec.volumeID in cfg.targetOf && spec.target == cfg.targetOf[spec.volumeID]
      requires spec.volumeID !in ops && spec.target !in mounts && spec.target in dirs
      modifies this
      ensures Valid() && RunsTo(cfg, old(World()), es, World()) && spec.volumeID !in ops
      ensures Begins(es, spec.volumeID, "")
      ensures ok ==> Serving(cfg, World(), spec.target) && spec.volumeID in records
      ensures ok && PlainOptions(spec.options) ==> Describes(records[spec.volumeID], spec, sandbox)
      ensures !ok && o.undo ==> spec.target !in mounts
      ensures !ok && o.remove ==> records == old(records) || records == old(records) - {spec.volumeID}
    {
      ghost var s0 := World();
      var plan := PlanRecord(spec, sandbox);
      if plan.Err? {
        return false, [];
      }
      ok, es := SaveAndStart(plan.value, o);
      RunKeepsInv(cfg, s0, es);
    }

    method SaveAndStart(st: Record, o: Outcome) returns (ok: bool, ghost es: seq<Event>)
      requires Enabled(cfg, World(), MountBegin(st.volumeID, st))
      modifies this
      ensures RunsTo(cfg, old(World()), es, World()) && st.volumeID !in ops
      ensures Begins(es, st.volumeID, "")
      ensures ok ==> Serving(cfg, World(), st.target) && Holds(World(), st.volumeID, st)
      ensures !ok && o.undo ==> st.target !in mounts
      ensures !ok && o.remove ==> records == old(records) || records == old(records) - {st.volumeID}
    {
      ghost var id, s0 := st.volumeID, World();
      Acquire(MountBegin(id, st));
      es := [MountBegin(id, st)];
      RunsOne(cfg, s0, MountBegin(id, st));
      ghost var s1 := World();
      SaveRecord(st, o.save);
      Extend(cfg, s0, es, s1, Saved(id, o.save));
      BeginsThenNone(es, [Saved(id, o.save)], id, "");
      es := es + [Saved(id, o.save)];
      if !o.save {
        return false, es;
      }
      ghost var s2 := World();
      ghost var tail;
      ok, tail := StartOrForget(st, o);
      RunsAppend(cfg, s0, es, s2, tail, World());
      BeginsThenNone(es, tail, id, "");
      es := es + tail;
    }

    method StartOrForget(st: Record, o: Outcome) returns (ok: bool, ghost es: seq<Event>)
      requires st.volumeID in ops && ops[st.volumeID] == Start(st, true) && st.target !in mounts
      modifies this
      ensures RunsTo(cfg, old(World()), es, World()) && st.volumeID !in ops
      ensures BeginsNone(es)
      ensures ok ==> Serving(cfg, World(), st.target) && records == old(records)
      ensures !ok && o.undo ==> st.target !in mounts
      ensures !ok && o.remove ==> records == old(records) - {st.volumeID}
    {
      ghost var id, s0 := st.volumeID, World();
      ok, es := StartDaemon(st, true, o);
      if ok {
        StartPlays(cfg, s0, id, st);
      } else {
        ghost var s1 := World();
        RemoveRecord(st.volumeID, o.remove, RolledBack(id, o.remove));
        Extend(cfg, s0, es, s1, RolledBack(id, o.remove));
        BeginsThenNone(es, [RolledBack(id, o.remove)], id, "");
        es := es + [RolledBack(id, o.remove)];
      }
    }

    /** shareUnion: a view of what serves; a source that does not is refused. A bind succeeds
        only while it still serves. */
    method ShareUnion(id: Id, source: Target, target: Target, readOnly: bool, o: Outcome)
      returns (ok: bool, ghost es: seq<Event>)
      requires Valid() && id in cfg.targetOf && target == cfg.targetOf[id] && source != ""
      requires id !in ops && target !in mounts && target in dirs
      modifies this
      ensures Valid() && RunsTo(cfg, old(World()), es, World()) && id !in ops
      ensures Begins(es, id, source)
      ensures ok ==> Probe(World(), target) == Live && source in mounts && mounts[target].owner == mounts[source].owner
      ensures ok ==> Holds(World(), id, Record(id, target, [], [], source, readOnly))
      ensures !ok ==> mounts == old(mounts)
      ensures !ok && o.remove ==> records == old(records) || records == old(records) - {id}
      ensures ok <==> Serving(cfg, old(World()), source) && o.save && o.bind
    {
      var serving := IsServing(source);
      if !serving {
        return false, [];
      }
      ghost var s0 := World();
      ok, es := ShareServing(Record(id, target, [], [], source, readOnly), o);
      RunKeepsInv(cfg, s0, es);
    }

    method ShareServing(st: Record, o: Outcome) returns (ok: bool, ghost es: seq<Event>)
      requires Enabled(cfg, World(), ShareBegin(st.volumeID, st))
      modifies this
      ensures RunsTo(cfg, old(World()), es, World()) && st.volumeID !in ops
      ensures Begins(es, st.volumeID, st.sharedFrom)
      ensures ok ==> && Probe(World(), st.target) == Live && st.sharedFrom in mounts
                     && mounts[st.target].owner == mounts[st.sharedFrom].owner
      ensures ok ==> Holds(World(), st.volumeID, st)
      ensures !ok ==> mounts == old(mounts)
      ensures !ok && o.remove ==> records == old(records) || records == old(records) - {st.volumeID}
      ensures ok <==> o.save && o.bind
    {
      ghost var id, s0 := st.volumeID, World();
      Acquire(ShareBegin(id, st));
      es := [ShareBegin(id, st)];
      RunsOne(cfg, s0, ShareBegin(id, st));
      ok, es := SaveAndBind(st, o, s0, es);
    }

    method SaveAndBind(st: Record, o: Outcome, ghost s0: State, ghost begun: seq<Event>)
      returns (ok: bool, ghost es: seq<Event>)
      requires RunsTo(cfg, s0, begun, World()) && st.volumeID in ops && ops[st.volumeID] == ShareSave(st)
      requires Serving(cfg, World(), st.sharedFrom) && st.target in dirs && st.target !in mounts
      modifies this
      ensures RunsTo(cfg, s0, es, World()) && st.volumeID !in ops
      ensures Begins(begun, st.volumeID, st.sharedFrom) ==> Begins(es, st.volumeID, st.sharedFrom)
      ensures ok ==>
              && Probe(World(), st.target) == Live && st.sharedFrom in mounts
              && mounts[st.target].owner == mounts[st.sharedFrom].owner
      ensures ok ==> Holds(World(), st.volumeID, st)
      ensures !ok ==> mounts == old(mounts)
      ensures !ok && o.remove ==> records == old(records) || records == old(records) - {st.volumeID}
      ensures ok <==> o.save && o.bind
    {
      ghost var id, s1 := st.volumeID, World();
      es := begun;
      SaveRecord(st, o.save);
      Extend(cfg, s0, es, s1, Saved(id, o.save));
      BeginsThenNone(es, [Saved(id, o.save)], id, st.sharedFrom);
      es := es + [Saved(id, o.save)];
      if !o.save {
        return false, es;
      }
      ghost var s2 := World();
      ghost var tail := BindOrForget(st, o);
      RunsAppend(cfg, s0, es, s2, tail, World());
      BeginsThenNone(es, tail, id, st.sharedFrom);
      es := es + tail;
      ok := o.bind;
    }

    method BindOrForget(st: Record, o: Outcome) returns (ghost es: seq<Event>)
      requires st.volumeID in ops && ops[st.volumeID] == ShareBind(st)
      requires Serving(cfg, World(), st.sharedFrom) && st.target in dirs && st.target !in mounts
      modifies this
      ensures RunsTo(cfg, old(World()), es, World()) && st.volumeID !in ops
      ensures BeginsNone(es)
      ensures o.bind ==>
              && Probe(World(), st.target) == Live && st.sharedFrom in mounts
              && mounts[st.target].owner == mounts[st.sharedFrom].owner
      ensures !o.bind ==> mounts == old(mounts)
      ensures records == if !o.bind && o.remove then old(records) - {st.volumeID} else old(records)
    {
      ghost var id, s0 := st.volumeID, World();
      Bind(st, o.bind, ShareBound(id, o.bind));
      es := [ShareBound(id, o.bind)];
      RunsOne(cfg, s0, ShareBound(id, o.bind));
      if !o.bind {
        ghost var s1 := World();
        RemoveRecord(st.volumeID, o.remove, RolledBack(id, o.remove));
        Extend(cfg, s0, es, s1, RolledBack(id, o.remove));
        BeginsThenNone(es, [RolledBack(id, o.remove)], id, "");
        es := es + [RolledBack(id, o.remove)];
      }
    }

    /** unmountUnion: the record goes last. A scope that does not stop is only logged. */
    method UnmountUnion(id: Id, target: Target, o: Outcome) returns (ok: bool, ghost es: seq<Event>)
      requires Valid() && id in cfg.targetOf && target == cfg.targetOf[id] && id !in ops
      modifies this
      ensures Valid() && RunsTo(cfg, old(World()), es, World()) && id !in ops
      ensures ok <==> o.detach && o.remove
      ensures ok ==> id !in records && target !in mounts && (o.stop ==> id !in daemons)
      ensures !ok ==> records == old(records)
    {
      ghost var s0 := World();
      Acquire(UnmountBegin(id));
      es := [UnmountBegin(id)];
      RunsOne(cfg, s0, UnmountBegin(id));
      ghost var s1 := World();
      Unmount(id, target, o.detach, UnmountDetached(id, o.detach));
      Extend(cfg, s0, es, s1, UnmountDetached(id, o.detach));
      es := es + [UnmountDetached(id, o.detach)];
      if o.detach {
        ghost var s2 := World();
        ghost var tail := StopAndForget(id, o);
        RunsAppend(cfg, s0, es, s2, tail, World());
        es := es + tail;
      }
      RunKeepsInv(cfg, s0, es);
      ok := o.detach && o.remove;
    }

    method StopAndForget(id: Id, o: Outcome) returns (ghost es: seq<Event>)
      requires id in ops && ops[id] == UnmountStop
      modifies this
      ensures RunsTo(cfg, old(World()), es, World()) && id !in ops
      ensures mounts == old(mounts) && (o.stop ==> id !in daemons)
      ensures records == if o.remove then old(records) - {id} else old(records)
    {
      ghost var s0 := World();
      StopScope(id, o.stop, UnmountStopped(id, o.stop));
      es := [UnmountStopped(id, o.stop)];
      RunsOne(cfg, s0, UnmountStopped(id, o.stop));
      ghost var s1 := World();
      RemoveRecord(id, o.remove, UnmountRemoved(id, o.remove));
      Extend(cfg, s0, es, s1, UnmountRemoved(id, o.remove));
      es := es + [UnmountRemoved(id, o.remove)];
    }

    // ---- reconcile ----

    method ProbeTarget(t: Target) returns (p: Probed)
      ensures p == Probe(World(), t)
    {
      if t in mounts {
        var m := mounts[t];
        if m.owner !in daemons || daemons[m.owner].pid != m.pid || daemons[m.owner].cut {
          return Dead;
        }
        return if daemons[m.owner].stuck then Hung else Live;
      }
      return if t in dirs then Other else Gone;
    }

    /** serving. */
    method IsServing(t: Target) returns (r: bool)
      ensures r == Serving(cfg, World(), t)
    {
      var p := ProbeTarget(t);
      r := p == Live && (cfg.seal ==> mounts[t].sealed);
    }

    /** remountUnion: off, stop, start again. */
    method RemountUnion(st: Record, o: Outcome) returns (ghost es: seq<Event>)
      requires st.volumeID in ops && ops[st.volumeID] == RemountDetach(st)
      modifies this
      ensures RunsTo(cfg, old(World()), es, World()) && st.volumeID !in ops
      ensures o == ALL_WELL && st.target in old(dirs) ==> es == RemountSteps(cfg, st.volumeID)
    {
      ghost var id, s0 := st.volumeID, World();
      Unmount(st.volumeID, st.target, o.detach, RemountDetached(id, o.detach));
      es := [RemountDetached(id, o.detach)];
      RunsOne(cfg, s0, RemountDetached(id, o.detach));
      if o.detach {
        ghost var s1 := World();
        ghost var tail := StopAndStart(st, o);
        RunsAppend(cfg, s0, es, s1, tail, World());
        es := es + tail;
      }
    }

    method StopAndStart(st: Record, o: Outcome) returns (ghost es: seq<Event>)
      requires st.volumeID in ops && ops[st.volumeID] == RemountStop(st)
      modifies this
      ensures RunsTo(cfg, old(World()), es, World()) && st.volumeID !in ops
      ensures o == ALL_WELL && st.target in old(dirs) ==>
                es == [RemountStopped(st.volumeID, true)] + ([Started(st.volumeID, true)] + SealSteps(cfg, st.volumeID))
    {
      ghost var id, s0 := st.volumeID, World();
      StopScope(st.volumeID, o.stop, RemountStopped(id, o.stop));
      es := [RemountStopped(id, o.stop)];
      RunsOne(cfg, s0, RemountStopped(id, o.stop));
      if o.stop {
        ghost var s1 := World();
        ghost var tail;
        var ok;
        ok, tail := StartDaemon(st, false, o);
        RunsAppend(cfg, s0, es, s1, tail, World());
        es := es + tail;
      }
    }

    /** rebindShared: bind the source again if it serves. */
    method RebindShared(st: Record, o: Outcome) returns (ghost es: seq<Event>)
      requires st.volumeID in ops ==> ops[st.volumeID] == RebindDetach(st)
      requires st.volumeID in ops <==> Serving(cfg, World(), st.sharedFrom)
      requires Serving(cfg, World(), st.sharedFrom) ==> st.target != st.sharedFrom
      modifies this
      ensures RunsTo(cfg, old(World()), es, World()) && st.volumeID !in ops
      ensures o == ALL_WELL && st.target in old(dirs) ==>
                es == if Serving(cfg, old(World()), st.sharedFrom) then RebindSteps(st.volumeID) else []
    {
      es := [];
      var serving := IsServing(st.sharedFrom);
      if serving {
        es := DetachAndBind(st, o);
      }
    }

    method DetachAndBind(st: Record, o: Outcome) returns (ghost es: seq<Event>)
      requires st.volumeID in ops && ops[st.volumeID] == RebindDetach(st)
      requires Serving(cfg, World(), st.sharedFrom) && st.target != st.sharedFrom
      modifies this
      ensures RunsTo(cfg, old(World()), es, World()) && st.volumeID !in ops
      ensures o == ALL_WELL && st.target in old(dirs) ==> es == RebindSteps(st.volumeID)
    {
      ghost var id, s0 := st.volumeID, World();
      Unmount(st.volumeID, st.target, o.detach, RebindDetached(id, o.detach));
      es := [RebindDetached(id, o.detach)];
      RunsOne(cfg, s0, RebindDetached(id, o.detach));
      if o.detach {
        ghost var s1 := World();
        var ok := o.bind && st.target in dirs;
        Bind(st, ok, RebindBound(id, ok));
        Extend(cfg, s0, es, s1, RebindBound(id, ok));
        es := es + [RebindBound(id, ok)];
      }
    }

    /** One turn of the loop of repairBranches. */
    method SeeOne(st: Record, pid: nat, i: nat, sight: Sight)
      requires stale.Valid() && st.volumeID in ops && ops[st.volumeID] == Repair(st, pid, i) && i < |st.branches|
      modifies this, stale
      ensures stale.Valid() && World() == Apply(cfg, old(World()), BranchSeen(st.volumeID, sight))
    {
      var br := st.branches[i];
      if sight.staleInDaemon && sight.liveOnHost {
        var passes := stale.HitBranch(st.volumeID, br.sandbox, pid);
        if passes >= STALE_THRESHOLD {
          daemons := SetClone(daemons, st.volumeID, i, if sight.replaced then Here(br) else Lost);
          if sight.replaced {
            stale.ClearBranch(st.volumeID, br.sandbox);
          }
        }
      } else {
        stale.ClearBranch(st.volumeID, br.sandbox);
      }
      ops := ops[st.volumeID := Repair(st, pid, i + 1)];
    }

    /** repairBranches. */
    method RepairBranches(st: Record, sights: seq<Sight>) returns (ghost es: seq<Event>)
      requires stale.Valid() && |sights| == |st.branches|
      requires st.volumeID in ops <==> st.branches != [] && PidOf(World(), st.volumeID) != 0
      requires st.volumeID in ops ==> ops[st.volumeID] == Repair(st, PidOf(World(), st.volumeID), 0)
      modifies this, stale
      ensures stale.Valid() && RunsTo(cfg, old(World()), es, World()) && st.volumeID !in ops
      ensures RepairTurns(st.volumeID, es)
    {
      es := [];
      var pid := if st.volumeID in daemons then daemons[st.volumeID].pid else 0;
      if st.branches != [] && pid != 0 {
        es := LookAtBranches(st, pid, sights);
      }
    }

    method LookAtBranches(st: Record, pid: nat, sights: seq<Sight>) returns (ghost es: seq<Event>)
      requires stale.Valid() && |sights| == |st.branches| && st.volumeID in ops
               && ops[st.volumeID] == Repair(st, pid, 0)
      modifies this, stale
      ensures stale.Valid() && RunsTo(cfg, old(World()), es, World()) && st.volumeID !in ops
      ensures RepairTurns(st.volumeID, es)
    {
      ghost var id, s0 := st.volumeID, World();
      es := [];
      for i := 0 to |st.branches|
        invariant stale.Valid() && RunsTo(cfg, s0, es, World()) && RepairTurns(id, es)
        invariant id in ops && ops[id] == Repair(st, pid, i)
      {
        es := Turn(st, pid, i, sights[i], s0, es);
      }
      es := EndRepair(id, s0, es);
    }

    method Turn(st: Record, pid: nat, i: nat, sight: Sight, ghost s0: State, ghost before: seq<Event>)
      returns (ghost es: seq<Event>)
      requires stale.Valid() && st.volumeID in ops && ops[st.volumeID] == Repair(st, pid, i) && i < |st.branches|
      requires RunsTo(cfg, s0, before, World()) && RepairTurns(st.volumeID, before)
      modifies this, stale
      ensures stale.Valid() && RunsTo(cfg, s0, es, World()) && RepairTurns(st.volumeID, es)
      ensures st.volumeID in ops && ops[st.volumeID] == Repair(st, pid, i + 1)
    {
      Extend(cfg, s0, before, World(), BranchSeen(st.volumeID, sight));
      SeeOne(st, pid, i, sight);
      es := before + [BranchSeen(st.volumeID, sight)];
    }

    ghost method EndRepair(id: Id, s0: State, turns: seq<Event>) returns (es: seq<Event>)
      requires RunsTo(cfg, s0, turns, World()) && RepairTurns(id, turns) && Enabled(cfg, World(), RepairEnd(id))
      modifies this`ops
      ensures RunsTo(cfg, s0, es, World()) && RepairTurns(id, es) && id !in ops
    {
      Extend(cfg, s0, turns, World(), RepairEnd(id));
      ops := ops - {id};
      es := turns + [RepairEnd(id)];
    }

    method DropRecord(id: Id, o: Outcome) returns (ghost es: seq<Event>)
      requires id in ops && ops[id].Drop?
      modifies this
      ensures RunsTo(cfg, old(World()), es, World()) && id !in ops && es == [Dropped(id, o.remove)]
    {
      es := [Dropped(id, o.remove)];
      RunsOne(cfg, World(), Dropped(id, o.remove));
      RemoveRecord(id, o.remove, Dropped(id, o.remove));
    }

    /** What reconcile does about what it saw. */
    method Act(st: Record, state: Probed, sights: seq<Sight>, o: Outcome, ghost s0: State)
      returns (ghost es: seq<Event>)
      requires stale.Valid() && |sights| == |st.branches|
      requires st.volumeID !in s0.ops && Holds(s0, st.volumeID, st)
               && World() == BeginReconcile(cfg, s0, st.volumeID, state)
      requires state == Dead ==> Probe(s0, st.target) == Dead && st.target in dirs
      modifies this, stale
      ensures stale.Valid() && RunsTo(cfg, old(World()), es, World()) && st.volumeID !in ops
      ensures o == ALL_WELL && state == Probe(s0, st.target) ==> Follows(cfg, s0, st.volumeID, es)
    {
      es := [];
      match state {
        case Hung => es := RepairBranches(st, sights);
        case Live => es := RepairBranches(st, sights);
        case Gone => es := DropRecord(st.volumeID, o);
        case Dead =>
          if IsView(st) {
            es := RebindShared(st, o);
          } else {
            es := RemountUnion(st, o);
          }
        case Other =>
      }
    }

    /** reconcile of one volume. A probe that cannot tell counts as Other. */
    method Reconcile(id: Id, conclusive: bool, sights: seq<Sight>, o: Outcome) returns (ghost es: seq<Event>)
      requires Valid() && id !in ops && (id in records ==> |sights| == |records[id].branches|)
      modifies this, stale
      ensures Valid() && RunsTo(cfg, old(World()), es, World()) && id !in ops
      ensures conclusive && o == ALL_WELL ==> WholeReconcile(cfg, old(World()), id, es)
    {
      es := [];
      if id !in records {
        return es;
      }
      var st := records[id];
      ghost var s0 := World();
      var state := ProbeTarget(st.target);
      if !conclusive {
        state := Other;
      }
      Acquire(ReconcileBegin(id, state));
      RunsOne(cfg, s0, ReconcileBegin(id, state));
      ghost var s1 := World();
      DeadTargetExists(cfg, s0, id);
      ghost var tail := Act(st, state, sights, o, s0);
      es := [ReconcileBegin(id, state)] + tail;
      RunsAppend(cfg, s0, [ReconcileBegin(id, state)], s1, tail, World());
      RunKeepsInv(cfg, s0, es);
      assert es[1..] == tail;
    }

    // ---- a pass ----

    /** LoadAll: the records in some order. */
    method LoadAll() returns (states: seq<Record>)
      requires Valid()
      ensures DistinctIds(states)
      ensures forall st :: st in states <==> Holds(World(), st.volumeID, st)
    {
      states := [];
      var todo := records.Keys;
      while todo != {}
        invariant todo <= records.Keys && DistinctIds(states)
        invariant forall st :: st in states <==> Holds(World(), st.volumeID, st) && st.volumeID !in todo
        decreases |todo|
      {
        var id :| id in todo;
        assert VolumeOk(cfg, World(), id);
        todo := todo - {id};
        states := states + [records[id]];
      }
    }

    /** ids: the volumes of a pass, shared views last; counters of volumes that are gone go. */
    method Ids() returns (ids: seq<Id>)
      requires Valid()
      modifies stale
      ensures Valid() && PassOrder(World(), ids) && World() == Apply(cfg, old(World()), PassBegin(ids))
    {
      var states := LoadAll();
      ghost var loaded := states;
      states := SharedLast(states);
      ids := [];
      for i := 0 to |states|
        invariant |ids| == i && forall j | 0 <= j < i :: ids[j] == states[j].volumeID
      {
        ids := ids + [states[i].volumeID];
      }
      ghost var s0 := World();
      IdsAreOrdered(cfg, s0, loaded, ids);
      stale.RetainVolumes(ids);
      StepKeepsInv(cfg, s0, PassBegin(ids));
    }

    /** A pass over the volumes in ids, every probe conclusive and every operation
        succeeding: what serves afterwards, and what is left to repair, is read off the state
        the pass began in; the dead unions serve again, whatever is stored. */
    method Pass(ids: seq<Id>, sights: map<Id, seq<Sight>>)
      returns (ghost runs: seq<seq<Event>>, ghost states: seq<State>)
      requires Valid() && (forall id | id in ids :: id !in ops) && PassOrder(World(), ids)
      requires forall id | id in records :: id in sights && |sights[id]| == |records[id].branches|
      modifies this, stale
      ensures Valid() && PassTrace(cfg, ids, runs, states) && states[0] == old(World()) && states[|ids|] == World()
      ensures Lists(old(World()), ids)
      ensures forall t :: Serving(cfg, World(), t) <==> ServesAfter(cfg, old(World()), ids, t, |ids|)
      ensures Settled(cfg, World()) <==> forall j | 0 <= j < |ids| :: !ComesTooEarly(cfg, old(World()), ids, j)
      ensures ShortChains(old(records)) ==> Settled(cfg, World())
      ensures forall id | id in old(records) && !IsView(old(records)[id])
              && Probe(old(World()), old(records)[id].target) == Dead ::
                Serving(cfg, World(), old(records)[id].target)
    {
      runs, states := Visit(ids, sights);
      PassMends(cfg, ids, runs, states);
    }

    method Visit(ids: seq<Id>, sights: map<Id, seq<Sight>>)
      returns (ghost runs: seq<seq<Event>>, ghost states: seq<State>)
      requires Valid() && forall id | id in ids :: id !in ops
      requires forall id | id in records :: id in sights && |sights[id]| == |records[id].branches|
      modifies this, stale
      ensures Valid() && PassTrace(cfg, ids, runs, states) && states[0] == old(World()) && states[|ids|] == World()
    {
      runs, states := [], [World()];
      for i := 0 to |ids|
        invariant Valid() && ops == old(ops) && |runs| == i
        invariant PassTrace(cfg, ids[..i], runs, states) && states[0] == old(World()) && states[i] == World()
        invariant forall id | id in records :: id in old(records) && records[id] == old(records)[id]
      {
        ghost var s := World();
        var seen := if ids[i] in sights then sights[ids[i]] else [];
        ghost var es := Reconcile(ids[i], true, seen, ALL_WELL);
        ReconcileEffect(cfg, s, ids[i], es);
        TraceGrows(cfg, ids[..i], runs, states, ids[i], es, World());
        runs, states := runs + [es], states + [World()];
        assert ids[..i + 1] == ids[..i] + [ids[i]];
      }
      assert ids[..|ids|] == ids;
    }
  }

  lemma IdsAreOrdered(cfg: Config, s: State, loaded: seq<Record>, ids: seq<Id>)
    requires Inv(cfg, s) && DistinctIds(loaded) && (forall st :: st in loaded <==> Holds(s, st.volumeID, st))
    requires |ids| == |SharedLast(loaded)| && forall i | 0 <= i < |ids| :: ids[i] == SharedLast(loaded)[i].volumeID
    ensures PassOrder(s, ids)
  {
    var states := SharedLast(loaded);
    SharedLastDistinct(loaded);
    SharedLastIsSorted(loaded);
    forall i | 0 <= i < |ids| ensures ids[i] in s.records && s.records[ids[i]] == states[i] {
      assert states[i] in states;
    }
    forall id | id in s.records ensures id in ids {
      assert VolumeOk(cfg, s, id);
      var i :| 0 <= i < |states| && states[i] == s.records[id];
      assert ids[i] == id;
    }
  }

  lemma PassMends(cfg: Config, ids: seq<Id>, runs: seq<seq<Event>>, states: seq<State>)
    requires PassTrace(cfg, ids, runs, states) && PassOrder(states[0], ids)
    ensures var s, s' := states[0], states[|ids|];
            && Lists(s, ids)
            && (forall t :: Serving(cfg, s', t) <==> ServesAfter(cfg, s, ids, t, |ids|))
            && (Settled(cfg, s') <==> forall j | 0 <= j < |ids| :: !ComesTooEarly(cfg, s, ids, j))
            && (ShortChains(s.records) ==> Settled(cfg, s'))
            && forall id | id in s.records && !IsView(s.records[id]) && Probe(s, s.records[id].target) == Dead ::
                 Serving(cfg, s', s.records[id].target)
  {
    var s := states[0];
    OnePassConverges(cfg, ids, runs, states);
    if ShortChains(s.records) {
      ShortChainsConverge(cfg, ids, runs, states);
    }
    forall t ensures Serving(cfg, states[|ids|], t) <==> ServesAfter(cfg, s, ids, t, |ids|) {
      PassServesIff(cfg, ids, runs, states, t);
    }
    forall id | id in s.records && !IsView(s.records[id]) && Probe(s, s.records[id].target) == Dead
      ensures Serving(cfg, states[|ids|], s.records[id].target)
    {
      UnionsServeAgain(cfg, ids, runs, states, id);
    }
  }

  lemma TraceGrows(cfg: Config, ids: seq<Id>, runs: seq<seq<Event>>, states: seq<State>, id: Id, es: seq<Event>,
                   s': State)
    requires PassTrace(cfg, ids, runs, states) && id !in states[0].ops
    requires WholeReconcile(cfg, states[|ids|], id, es) && s' == After(cfg, states[|ids|], es)
    ensures PassTrace(cfg, ids + [id], runs + [es], states + [s'])
  {
    var ids', runs', states' := ids + [id], runs + [es], states + [s'];
    forall i | 0 <= i < |ids'|
      ensures WholeReconcile(cfg, states'[i], ids'[i], runs'[i]) && states'[i + 1] == After(cfg, states'[i], runs'[i])
    {
      assert i < |ids| ==> WholeReconcile(cfg, states[i], ids[i], runs[i]);
    }
  }

  lemma DeadTargetExists(cfg: Config, s: State, id: Id)
    requires Inv(cfg, s) && id in s.records
    ensures s.records[id].volumeID == id
    ensures Probe(s, s.records[id].target) == Dead ==> s.records[id].target in s.dirs
  {
    assert VolumeOk(cfg, s, id);
  }
}
