/** A reconcile never touches what answers: it unmounts, stops and replaces only what is
    dead (pkg/backend/mergerfs/reconcile_linux.go). */
module SupervisionServing {
  import opened Argv
  import opened Supervision
  import opened SupervisionSafety
  import opened SupervisionRuns

  // ---- a fresh mount is nobody else's ----

  predicate Fresh(op: Op) {
    op.Seal? || op.SealUndo?
  }

  /** Until it is sealed, the mount of id is the only one of its process. */
  ghost predicate PrivateAt(cfg: Config, s: State, id: Id)
    requires id in cfg.targetOf
  {
    var t := cfg.targetOf[id];
    id in s.ops && Fresh(s.ops[id]) ==>
      && cfg.seal && t in s.mounts && !s.mounts[t].sealed
      && forall x | x in s.mounts && x != t :: !(s.mounts[x].owner == id && s.mounts[x].pid == s.mounts[t].pid)
  }

  ghost predicate FreshIsPrivate(cfg: Config, s: State) {
    forall id | id in cfg.targetOf :: PrivateAt(cfg, s, id)
  }

  lemma OldMounts(cfg: Config, s: State)
    requires Inv(cfg, s)
    ensures forall x | x in s.mounts :: s.mounts[x].pid < s.nextPid
  {
    forall x | x in s.mounts ensures s.mounts[x].pid < s.nextPid {
      assert VolumeOk(cfg, s, VolumeAt(cfg, x));
    }
  }

  lemma StartedIsPrivate(cfg: Config, s: State, id: Id, ok: bool)
    requires Inv(cfg, s) && id in cfg.targetOf && Enabled(cfg, s, Started(id, ok))
    ensures PrivateAt(cfg, Apply(cfg, s, Started(id, ok)), id)
  {
    OldMounts(cfg, s);
    assert VolumeOk(cfg, s, id);
  }

  lemma SealedIsPrivate(cfg: Config, s: State, id: Id, ok: bool)
    requires id in cfg.targetOf && PrivateAt(cfg, s, id) && Enabled(cfg, s, Sealed(id, ok))
    ensures PrivateAt(cfg, Apply(cfg, s, Sealed(id, ok)), id)
  {}

  /** Every other step ends with another operation, or none. */
  ghost predicate NotFresh(s: State, s': State, id: Id) {
    id in s'.ops && Fresh(s'.ops[id]) ==> s' == s || (s'.mounts == s.mounts && id in s.ops && s'.ops[id] == s.ops[id])
  }

  lemma PublishNotFresh(cfg: Config, s: State, e: Event)
    requires IsPublish(e) && Enabled(cfg, s, e)
    ensures NotFresh(s, Apply(cfg, s, e), e.id)
  {}

  lemma UnpublishNotFresh(cfg: Config, s: State, e: Event)
    requires (IsUnpublish(e) || e.SealUndone?) && Enabled(cfg, s, e)
    ensures NotFresh(s, Apply(cfg, s, e), e.id)
  {}

  lemma RemountNotFresh(cfg: Config, s: State, e: Event)
    requires IsRemount(e) && Enabled(cfg, s, e)
    ensures NotFresh(s, Apply(cfg, s, e), e.id)
  {}

  lemma ReconcileNotFresh(cfg: Config, s: State, id: Id, seen: Probed)
    requires Enabled(cfg, s, ReconcileBegin(id, seen))
    ensures NotFresh(s, BeginReconcile(cfg, s, id, seen), id)
  {}

  lemma LookNotFresh(s: State, id: Id, sight: Sight)
    requires id in s.ops && s.ops[id].Repair? && s.ops[id].next < |s.ops[id].st.branches|
    ensures NotFresh(s, SeeBranch(s, id, sight), id)
  {}

  lemma EndNotFresh(cfg: Config, s: State, e: Event)
    requires (e.RepairEnd? || e.DaemonExit? || e.DaemonStuck? || e.DaemonCut?) && Enabled(cfg, s, e)
    ensures NotFresh(s, Apply(cfg, s, e), e.id)
  {}

  lemma OwnStepKeepsPrivate(cfg: Config, s: State, e: Event)
    requires Inv(cfg, s) && Enabled(cfg, s, e) && !Environment(e) && e.id in cfg.targetOf && PrivateAt(cfg, s, e.id)
    ensures PrivateAt(cfg, Apply(cfg, s, e), e.id)
  {
    if e.Started? {
      StartedIsPrivate(cfg, s, e.id, e.ok);
    } else if e.Sealed? {
      SealedIsPrivate(cfg, s, e.id, e.ok);
    } else if IsPublish(e) {
      PublishNotFresh(cfg, s, e);
    } else if IsUnpublish(e) || e.SealUndone? {
      UnpublishNotFresh(cfg, s, e);
    } else if IsRemount(e) {
      RemountNotFresh(cfg, s, e);
    } else if e.ReconcileBegin? {
      ReconcileNotFresh(cfg, s, e.id, e.seen);
    } else if e.BranchSeen? {
      LookNotFresh(s, e.id, e.sight);
    } else {
      EndNotFresh(cfg, s, e);
    }
  }

  /** t is left as it was but for the seal. */
  ghost predicate OnlySealed(s: State, s': State, t: Target) {
    t in s.mounts && t in s'.mounts && s'.mounts[t] == s.mounts[t].(sealed := s'.mounts[t].sealed)
  }

  /** m is a view, of the mount at x, which serves. */
  ghost predicate Views(cfg: Config, s: State, m: Mount, x: Target) {
    && x in s.mounts && Serving(cfg, s, x) && m.owner == s.mounts[x].owner && m.pid == s.mounts[x].pid
    && m.record.sharedFrom == x
  }

  /** What a step of mover puts at its target: nothing, what was there but for the seal, a
      mount of its own new process, or a view of one that serves. */
  ghost predicate PutsOwn(cfg: Config, s: State, s': State, mover: Id)
    requires mover in cfg.targetOf
  {
    var t := cfg.targetOf[mover];
    t in s'.mounts ==>
      || OnlySealed(s, s', t)
      || (s'.mounts[t].owner == mover && !IsView(s'.mounts[t].record))
      || Views(cfg, s, s'.mounts[t], s'.mounts[t].record.sharedFrom)
  }

  lemma BindPutsOwn(cfg: Config, s: State, e: Event)
    requires (e.ShareBound? || e.RebindBound?) && Ready(cfg, s, e.id, e)
    ensures PutsOwn(cfg, s, Apply(cfg, s, e), e.id)
  {
    if e.ok {
      assert s.ops[e.id].st.sharedFrom in s.mounts;
    }
  }

  lemma StartPutsOwn(cfg: Config, s: State, e: Event)
    requires IsStart(e) && Ready(cfg, s, e.id, e)
    ensures PutsOwn(cfg, s, Apply(cfg, s, e), e.id)
  {}

  lemma PublishPutsOwn(cfg: Config, s: State, e: Event)
    requires (IsPublish(e) || IsUnpublish(e)) && !e.ShareBound? && Ready(cfg, s, e.id, e)
    ensures PutsOwn(cfg, s, Apply(cfg, s, e), e.id)
  {}

  lemma RemountPutsOwn(cfg: Config, s: State, e: Event)
    requires IsRemount(e) && !e.RebindBound? && Ready(cfg, s, e.id, e)
    ensures PutsOwn(cfg, s, Apply(cfg, s, e), e.id)
  {}

  lemma StepPutsOwn(cfg: Config, s: State, e: Event)
    requires !Environment(e) && Ready(cfg, s, e.id, e)
    ensures PutsOwn(cfg, s, Apply(cfg, s, e), e.id)
  {
    if e.ShareBound? || e.RebindBound? {
      BindPutsOwn(cfg, s, e);
    } else if IsStart(e) {
      StartPutsOwn(cfg, s, e);
    } else if IsPublish(e) || IsUnpublish(e) {
      PublishPutsOwn(cfg, s, e);
    } else if IsRemount(e) {
      RemountPutsOwn(cfg, s, e);
    } else {
      MountsStay(cfg, s, e);
    }
  }

  /** A step of another volume cannot view the fresh mount, because it does not serve yet. */
  lemma OthersKeepPrivate(cfg: Config, s: State, s': State, mover: Id, id: Id)
    requires GoodConfig(cfg) && mover in cfg.targetOf && id in cfg.targetOf && mover != id
    requires PrivateAt(cfg, s, id) && Confined(cfg, s, s', mover) && PutsOwn(cfg, s, s', mover)
    ensures PrivateAt(cfg, s', id)
  {
    var t, tm := cfg.targetOf[id], cfg.targetOf[mover];
    assert t != tm;
    assert id in s'.ops <==> id in s.ops;
    assert t in s'.mounts <==> t in s.mounts;
    if id in s.ops && Fresh(s.ops[id]) {
      forall x | x in s'.mounts && x != t ensures !(s'.mounts[x].owner == id && s'.mounts[x].pid == s'.mounts[t].pid) {
        if x != tm {
          assert x in s.mounts && s'.mounts[x] == s.mounts[x];
        }
      }
    }
  }

  lemma EnvironmentKeepsPrivate(cfg: Config, s: State, e: Event, id: Id)
    requires Environment(e) && Enabled(cfg, s, e) && id in cfg.targetOf && PrivateAt(cfg, s, id)
    ensures PrivateAt(cfg, Apply(cfg, s, e), id)
  {}

  lemma StepKeepsPrivate(cfg: Config, s: State, e: Event)
    requires GoodConfig(cfg) && Inv(cfg, s) && FreshIsPrivate(cfg, s) && Enabled(cfg, s, e)
    ensures FreshIsPrivate(cfg, Apply(cfg, s, e))
  {
    forall id | id in cfg.targetOf ensures PrivateAt(cfg, Apply(cfg, s, e), id) {
      assert PrivateAt(cfg, s, id);
      if Environment(e) {
        EnvironmentKeepsPrivate(cfg, s, e, id);
      } else if e.id !in cfg.targetOf {
        StrangerDoesNothing(cfg, s, e);
      } else if e.id == id {
        OwnStepKeepsPrivate(cfg, s, e);
      } else {
        VolumeStepsWell(cfg, s, e);
        StepPutsOwn(cfg, s, e);
        OthersKeepPrivate(cfg, s, Apply(cfg, s, e), e.id, id);
      }
    }
  }

  lemma {:induction false} RunKeepsPrivate(cfg: Config, s: State, es: seq<Event>)
    requires GoodConfig(cfg) && Inv(cfg, s) && FreshIsPrivate(cfg, s) && Runs(cfg, s, es)
    ensures FreshIsPrivate(cfg, After(cfg, s, es))
    decreases |es|
  {
    if es != [] {
      StepKeepsPrivate(cfg, s, es[0]);
      StepKeepsInv(cfg, s, es[0]);
      RunKeepsPrivate(cfg, Apply(cfg, s, es[0]), es[1..]);
    }
  }

  // ---- a serving daemon is never touched ----

  /** At the moment a reconcile takes a mount down it is dead, not merely was when probed. */
  lemma ReconcileDetachesOnlyTheDead(cfg: Config, s: State, id: Id, ok: bool, e: Event)
    requires GoodConfig(cfg) && Inv(cfg, s) && id in cfg.targetOf
    requires (e == RemountDetached(id, ok) || e == RebindDetached(id, ok)) && Enabled(cfg, s, e)
    ensures Probe(s, cfg.targetOf[id]) == Dead
  {
    assert VolumeOk(cfg, s, id);
  }

  /** The stop before a remount kills, if anything, a process that is cut off, and every
      mount of which is dead. */
  lemma ReconcileStopsOnlyTheCutOff(cfg: Config, s: State, id: Id)
    requires GoodConfig(cfg) && Inv(cfg, s) && id in cfg.targetOf && Enabled(cfg, s, RemountStopped(id, true))
    ensures SameBut(s.daemons, Apply(cfg, s, RemountStopped(id, true)).daemons, id) && CutOff(s, id)
    ensures forall t | t in s.mounts && s.mounts[t].owner == id :: Probe(s, t) == Dead
  {
    assert VolumeOk(cfg, s, id);
  }

  /** A remount starts its daemon where nothing is mounted, and replaces none. */
  lemma ReconcileStartReplacesNothing(cfg: Config, s: State, id: Id, st: Record)
    requires GoodConfig(cfg) && Inv(cfg, s) && id in cfg.targetOf && id in s.ops && s.ops[id] == Start(st, false)
    ensures id !in s.daemons && cfg.targetOf[id] !in s.mounts && Holds(s, id, st)
  {
    assert VolumeOk(cfg, s, id);
  }

  /** The same mount by the same process, with the same answer to a probe. */
  ghost predicate Undisturbed(s: State, s': State, t: Target)
    requires t in s.mounts
  {
    && t in s'.mounts && s'.mounts[t].(sealed := s.mounts[t].sealed) == s.mounts[t]
    && (s.mounts[t].owner in s.daemons ==>
          && s.mounts[t].owner in s'.daemons
          && var d, d' := s.daemons[s.mounts[t].owner], s'.daemons[s.mounts[t].owner];
             d' == d.(clones := d'.clones))
    && Probe(s', t) == Probe(s, t)
  }

  /** No step of a reconcile unmounts, stops or replaces what answers, at any target but its
      own fresh mount that it could not seal. */
  lemma ReconcileNeverDisturbs(cfg: Config, s: State, e: Event, t: Target)
    requires OfReconcile(s, e) && Stands(cfg, s, e, t) && FreshIsPrivate(cfg, s)
    requires e.SealUndone? ==> t != cfg.targetOf[e.id]
    ensures Undisturbed(s, Apply(cfg, s, e), t)
  {
    if Taking(e) || Making(e) {
      MovingNeverDisturbs(cfg, s, e, t);
    } else if e.SealUndone? {
      UndoNeverDisturbs(cfg, s, e, t);
    } else {
      assert Watching(e);
      WatchingNeverDisturbs(cfg, s, e, t);
    }
  }

  lemma MovingNeverDisturbs(cfg: Config, s: State, e: Event, t: Target)
    requires (Taking(e) || Making(e)) && OfReconcile(s, e) && Stands(cfg, s, e, t)
    ensures Undisturbed(s, Apply(cfg, s, e), t)
  {
    if Taking(e) {
      TakingNeverDisturbs(cfg, s, e, t);
    } else {
      MakingNeverDisturbs(cfg, s, e, t);
    }
  }

  /** In every run, whatever came before. */
  lemma RunNeverDisturbs(cfg: Config, es: seq<Event>, s: State, e: Event, t: Target)
    requires GoodConfig(cfg) && RunsTo(cfg, INITIAL, es, s) && Enabled(cfg, s, e)
    requires OfReconcile(s, e) && !Environment(e) && e.id in cfg.targetOf && t in s.mounts && Answers(s, t)
    requires e.SealUndone? ==> t != cfg.targetOf[e.id]
    ensures Undisturbed(s, Apply(cfg, s, e), t)
  {
    ReachedIsSound(cfg, es, s);
    assert Stands(cfg, s, e, t);
    ReconcileNeverDisturbs(cfg, s, e, t);
  }

  lemma ReachedIsSound(cfg: Config, es: seq<Event>, s: State)
    requires GoodConfig(cfg) && RunsTo(cfg, INITIAL, es, s)
    ensures Inv(cfg, s) && FreshIsPrivate(cfg, s)
  {
    InitialInv(cfg);
    RunKeepsInv(cfg, INITIAL, es);
    RunKeepsPrivate(cfg, INITIAL, es);
  }

  ghost predicate KeepsOwn(cfg: Config, s: State, s': State, id: Id)
    requires id in cfg.targetOf
  {
    var t := cfg.targetOf[id];
    && (!CutOff(s, id) ==> id in s'.daemons && s'.daemons[id] == s.daemons[id].(clones := s'.daemons[id].clones))
    && (t in s.mounts && Answers(s, t) ==> t in s'.mounts && s'.mounts[t].(sealed := s.mounts[t].sealed) == s.mounts[t])
  }

  lemma UndisturbedByFrame(cfg: Config, s: State, s': State, id: Id, t: Target)
    requires id in cfg.targetOf && t in s.mounts && Answers(s, t)
    requires SameBut(s.daemons, s'.daemons, id) && SameBut(s.mounts, s'.mounts, cfg.targetOf[id])
    requires KeepsOwn(cfg, s, s', id) || (s.mounts[t].owner != id && cfg.targetOf[id] != t)
    ensures Undisturbed(s, s', t)
  {
    var owner := s.mounts[t].owner;
    assert owner != id ==> (owner in s.daemons <==> owner in s'.daemons);
    assert cfg.targetOf[id] != t ==> (t in s.mounts <==> t in s'.mounts);
  }

  predicate Watching(e: Event) {
    e.ReconcileBegin? || e.Dropped? || e.BranchSeen? || e.RepairEnd?
  }

  ghost predicate Stands(cfg: Config, s: State, e: Event, t: Target) {
    && GoodConfig(cfg) && Inv(cfg, s) && Enabled(cfg, s, e) && !Environment(e) && e.id in cfg.targetOf
    && t in s.mounts && Answers(s, t)
  }

  lemma TakingNeverDisturbs(cfg: Config, s: State, e: Event, t: Target)
    requires Taking(e) && Stands(cfg, s, e, t)
    ensures Undisturbed(s, Apply(cfg, s, e), t)
  {
    if e.RebindBound? {
      BindStepsWell(cfg, s, e);
    } else {
      ReconcileStepsWell(cfg, s, e);
    }
    TakingKeepsOwn(cfg, s, e);
    UndisturbedByFrame(cfg, s, Apply(cfg, s, e), e.id, t);
  }

  lemma MakingNeverDisturbs(cfg: Config, s: State, e: Event, t: Target)
    requires Making(e) && Stands(cfg, s, e, t) && OfReconcile(s, e)
    ensures Undisturbed(s, Apply(cfg, s, e), t)
  {
    PublishStepsWell(cfg, s, e);
    MakingKeepsOwn(cfg, s, e);
    UndisturbedByFrame(cfg, s, Apply(cfg, s, e), e.id, t);
  }

  lemma UndoNeverDisturbs(cfg: Config, s: State, e: Event, t: Target)
    requires e.SealUndone? && Stands(cfg, s, e, t) && FreshIsPrivate(cfg, s) && t != cfg.targetOf[e.id]
    ensures Undisturbed(s, Apply(cfg, s, e), t)
  {
    PublishStepsWell(cfg, s, e);
    assert VolumeOk(cfg, s, e.id) && PrivateAt(cfg, s, e.id);
    assert s.mounts[t].owner != e.id;
    UndisturbedByFrame(cfg, s, Apply(cfg, s, e), e.id, t);
  }

  lemma WatchingNeverDisturbs(cfg: Config, s: State, e: Event, t: Target)
    requires Watching(e) && Stands(cfg, s, e, t)
    ensures Undisturbed(s, Apply(cfg, s, e), t)
  {
    if e.ReconcileBegin? || e.Dropped? {
      ReconcileStepsWell(cfg, s, e);
    } else {
      RunningStepsWell(cfg, s, e);
    }
    WatchingKeepsOwn(cfg, s, e);
    UndisturbedByFrame(cfg, s, Apply(cfg, s, e), e.id, t);
  }

  lemma TakingKeepsOwn(cfg: Config, s: State, e: Event)
    requires Taking(e) && e.id in cfg.targetOf && VolumeOk(cfg, s, e.id) && Enabled(cfg, s, e)
    ensures KeepsOwn(cfg, s, Apply(cfg, s, e), e.id)
  {}

  lemma MakingKeepsOwn(cfg: Config, s: State, e: Event)
    requires Making(e) && e.id in cfg.targetOf && VolumeOk(cfg, s, e.id) && Enabled(cfg, s, e) && OfReconcile(s, e)
    ensures KeepsOwn(cfg, s, Apply(cfg, s, e), e.id)
  {}

  lemma WatchingKeepsOwn(cfg: Config, s: State, e: Event)
    requires Watching(e) && e.id in cfg.targetOf && Enabled(cfg, s, e)
    ensures KeepsOwn(cfg, s, Apply(cfg, s, e), e.id)
  {
    if e.BranchSeen? {
      TurnKeepsOwn(cfg, s, e.id, e.sight);
    }
  }

  lemma TurnKeepsOwn(cfg: Config, s: State, id: Id, sight: Sight)
    requires id in cfg.targetOf && id in s.ops && s.ops[id].Repair? && s.ops[id].next < |s.ops[id].st.branches|
    ensures KeepsOwn(cfg, s, SeeBranch(s, id, sight), id)
  {}
}
