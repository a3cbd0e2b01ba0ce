/** What publishes that begin late leave of the promises of a reconcile and an unpublish
    (pkg/backend/mergerfs/reconcile_linux.go, mount_linux.go), and runs that show the rest gone. */
module LateServing {
  import opened Argv
  import opened Supervision
  import opened SupervisionSafety
  import opened SupervisionRuns
  import opened SupervisionServing
  import opened SupervisionConvergence
  import opened SupervisionRemounts
  import opened SharedChains
  import opened ChainedPass
  import opened LatePublish

  ghost predicate Reached(cfg: Config, es: seq<Event>, n: Node) {
    GoodConfig(cfg) && LateRuns(cfg, START, es) && LateAfter(cfg, START, es) == n
  }

  lemma ReachedIsOk(cfg: Config, es: seq<Event>, n: Node, id: Id)
    requires Reached(cfg, es, n) && id in cfg.targetOf
    ensures LateOk(cfg, n, id) && OldMount(n.s)
  {
    RunKeepsLateInv(cfg, START, es);
  }

  // ---- no resurrection ----

  /** Once a volume has no record and no mount, nothing mounts its target until a record of it
      is saved. */
  lemma {:induction false} LateNoResurrection(cfg: Config, n: Node, es: seq<Event>, id: Id)
    requires GoodConfig(cfg) && LateInv(cfg, n) && LateRuns(cfg, n, es) && id in cfg.targetOf
    requires id !in n.s.records && cfg.targetOf[id] !in n.s.mounts && Saved(id, true) !in es
    ensures var n' := LateAfter(cfg, n, es);
            id !in n'.s.records && cfg.targetOf[id] !in n'.s.mounts && Hidden(n', cfg.targetOf[id]) == []
    decreases |es|
  {
    if es == [] {
      assert LateOk(cfg, n, id);
    } else {
      assert es[0] in es;
      StepGoesWell(cfg, n, es[0], id);
      RecordStaysGone(cfg, n, es[0], id);
      StepKeepsLateInv(cfg, n, es[0]);
      LateNoResurrection(cfg, Step(cfg, n, es[0]), es[1..], id);
    }
  }

  lemma RecordStaysGone(cfg: Config, n: Node, e: Event, id: Id)
    requires MayStep(cfg, n, e) && id !in n.s.records && e != Saved(id, true)
    ensures id !in Step(cfg, n, e).s.records
  {
    if !Late(cfg, n.s, e) {
      StepIsTame(cfg, n.s, e);
    }
  }

  /** The last step of an unpublish removes the record, and the target is mounted afterwards
      exactly if it was before, by what the unmount brought up. */
  lemma LateUnpublishEnds(cfg: Config, n: Node, id: Id)
    requires MayStep(cfg, n, UnmountRemoved(id, true))
    ensures var n' := Step(cfg, n, UnmountRemoved(id, true));
            id !in n'.s.records && n'.s.mounts == n.s.mounts && n'.below == n.below
  {}

  // ---- what answers ----

  /** A reconcile takes down only what is dead. */
  lemma LateDetachesOnlyTheDead(cfg: Config, es: seq<Event>, n: Node, id: Id, ok: bool, e: Event)
    requires Reached(cfg, es, n) && id in cfg.targetOf
    requires (e == RemountDetached(id, ok) || e == RebindDetached(id, ok)) && MayStep(cfg, n, e)
    ensures Probe(n.s, cfg.targetOf[id]) == Dead
  {
    ReachedIsOk(cfg, es, n, id);
  }

  /** The step stops the process behind t. */
  predicate Stops(s: State, e: Event, t: Target)
    requires t in s.mounts
  {
    ((e.RemountStopped? && e.ok) || e.SealUndone?) && s.mounts[t].owner == e.id
  }

  /** The step mounts over t, and not the view that is there already. */
  predicate Hides(s: State, e: Event, t: Target)
    requires t in s.mounts
  {
    Covers(s, e) && s.ops[e.id].st.target == t &&
      var st := s.ops[e.id].st;
      e.Started? || (st.sharedFrom in s.mounts ==>
          s.mounts[t].(sealed := false) != s.mounts[st.sharedFrom].(record := st, sealed := false))
  }

  /** A step of a reconcile disturbs what answers exactly if it stops the process behind it or
      mounts over it: all else a reconcile does spares it, however late publishes begin. */
  lemma LateDisturbsIff(cfg: Config, es: seq<Event>, n: Node, e: Event, t: Target)
    requires Reached(cfg, es, n) && MayStep(cfg, n, e) && OfReconcile(n.s, e) && e.id in cfg.targetOf
    requires t in n.s.mounts && Answers(n.s, t)
    ensures Undisturbed(n.s, Step(cfg, n, e).s, t) <==> !Stops(n.s, e, t) && !Hides(n.s, e, t)
  {
    ReachedIsOk(cfg, es, n, e.id);
    BegunOnTime(cfg, n, e);
    if Uncovers(e) {
      UncoveringDisturbsIff(cfg, n, e, t);
    } else {
      PlainStepDisturbsIff(cfg, n, e, t);
    }
  }

  lemma BegunOnTime(cfg: Config, n: Node, e: Event)
    requires MayStep(cfg, n, e) && OfReconcile(n.s, e)
    ensures Enabled(cfg, n.s, e) && !Environment(e)
  {}

  lemma PlainStepDisturbsIff(cfg: Config, n: Node, e: Event, t: Target)
    requires Looking(cfg, n.s, e, t) && !Uncovers(e) && MayStep(cfg, n, e)
    ensures Undisturbed(n.s, Step(cfg, n, e).s, t) <==> !Stops(n.s, e, t) && !Hides(n.s, e, t)
  {
    StepIsApply(cfg, n, e);
    PlainDisturbsIff(cfg, n.s, e, t);
  }

  lemma StepIsApply(cfg: Config, n: Node, e: Event)
    requires MayStep(cfg, n, e) && OfReconcile(n.s, e) && !Uncovers(e)
    ensures Enabled(cfg, n.s, e) && Step(cfg, n, e).s == Apply(cfg, n.s, e)
  {}

  lemma PlainDisturbsIff(cfg: Config, s: State, e: Event, t: Target)
    requires Looking(cfg, s, e, t) && !Uncovers(e)
    ensures Undisturbed(s, Apply(cfg, s, e), t) <==> !Stops(s, e, t) && !Hides(s, e, t)
  {
    if e.RemountStopped? {
      StopDisturbsIff(cfg, s, e.id, e.ok, t);
    } else if e.Started? {
      StartDisturbsIff(cfg, s, e.id, e.ok, t);
    } else if e.RebindBound? {
      RebindDisturbsIff(cfg, s, e.id, e.ok, t);
    } else if e.SealUndone? {
      FailedUndoDisturbsIff(cfg, s, e.id, t);
    } else if e.BranchSeen? {
      LookDisturbsNothing(cfg, s, e.id, e.sight, t);
    } else if e.ReconcileBegin? {
      BeginDisturbsNothing(cfg, s, e.id, e.seen, t);
    } else if e.Dropped? || e.Sealed? {
      RestDisturbsNothing(cfg, s, e, t);
    } else {
      EndDisturbsNothing(cfg, s, e, t);
    }
  }

  ghost predicate Looking(cfg: Config, s: State, e: Event, t: Target) {
    && OfReconcile(s, e) && LateReady(cfg, s, e) && Enabled(cfg, s, e) && t in s.mounts && Answers(s, t)
  }

  lemma UncoveringDisturbsIff(cfg: Config, n: Node, e: Event, t: Target)
    requires Looking(cfg, n.s, e, t) && Uncovers(e) && MayStep(cfg, n, e)
    ensures Undisturbed(n.s, Step(cfg, n, e).s, t) <==> !Stops(n.s, e, t)
    ensures !Hides(n.s, e, t)
  {
    if e.RemountDetached? {
      RemountDisturbsNothing(cfg, n.s, e.id, t);
      RevealDisturbsNothing(cfg, n, Apply(cfg, n.s, e), e.id, t);
    } else if e.RebindDetached? {
      UnbindDisturbsNothing(cfg, n.s, e.id, t);
      RevealDisturbsNothing(cfg, n, Apply(cfg, n.s, e), e.id, t);
    } else {
      UndoDisturbsIff(cfg, n, e.id, t);
    }
  }

  lemma RemountDisturbsNothing(cfg: Config, s: State, id: Id, t: Target)
    requires Looking(cfg, s, RemountDetached(id, true), t)
    ensures t != cfg.targetOf[id] && Undisturbed(s, Apply(cfg, s, RemountDetached(id, true)), t)
  {}

  lemma UnbindDisturbsNothing(cfg: Config, s: State, id: Id, t: Target)
    requires Looking(cfg, s, RebindDetached(id, true), t)
    ensures t != cfg.targetOf[id] && Undisturbed(s, Apply(cfg, s, RebindDetached(id, true)), t)
  {}

  lemma RevealDisturbsNothing(cfg: Config, n: Node, s': State, id: Id, t: Target)
    requires id in cfg.targetOf && t in n.s.mounts && t != cfg.targetOf[id] && Undisturbed(n.s, s', t)
    ensures Undisturbed(n.s, Reveal(n.(s := s'), cfg.targetOf[id]).s, t)
  {}

  lemma StopDisturbsIff(cfg: Config, s: State, id: Id, ok: bool, t: Target)
    requires Looking(cfg, s, RemountStopped(id, ok), t)
    ensures Undisturbed(s, Apply(cfg, s, RemountStopped(id, ok)), t) <==> !Stops(s, RemountStopped(id, ok), t)
  {}

  lemma StartDisturbsIff(cfg: Config, s: State, id: Id, ok: bool, t: Target)
    requires Looking(cfg, s, Started(id, ok), t)
    ensures Undisturbed(s, Apply(cfg, s, Started(id, ok)), t) <==> !Hides(s, Started(id, ok), t)
  {}

  lemma RebindDisturbsIff(cfg: Config, s: State, id: Id, ok: bool, t: Target)
    requires Looking(cfg, s, RebindBound(id, ok), t)
    ensures Undisturbed(s, Apply(cfg, s, RebindBound(id, ok)), t) <==> !Hides(s, RebindBound(id, ok), t)
  {}

  lemma UndoDisturbsIff(cfg: Config, n: Node, id: Id, t: Target)
    requires Looking(cfg, n.s, SealUndone(id, true), t)
    ensures Undisturbed(n.s, Step(cfg, n, SealUndone(id, true)).s, t) <==> !Stops(n.s, SealUndone(id, true), t)
  {}

  lemma FailedUndoDisturbsIff(cfg: Config, s: State, id: Id, t: Target)
    requires Looking(cfg, s, SealUndone(id, false), t)
    ensures Undisturbed(s, Apply(cfg, s, SealUndone(id, false)), t) <==> !Stops(s, SealUndone(id, false), t)
  {}

  lemma LookDisturbsNothing(cfg: Config, s: State, id: Id, sight: Sight, t: Target)
    requires Looking(cfg, s, BranchSeen(id, sight), t)
    ensures Undisturbed(s, SeeBranch(s, id, sight), t)
  {
    LookingMountsNothing(s, id, sight);
  }

  lemma BeginDisturbsNothing(cfg: Config, s: State, id: Id, seen: Probed, t: Target)
    requires Looking(cfg, s, ReconcileBegin(id, seen), t)
    ensures Undisturbed(s, BeginReconcile(cfg, s, id, seen), t)
  {
    OnlyBegins(cfg, s, id, seen);
  }

  lemma RestDisturbsNothing(cfg: Config, s: State, e: Event, t: Target)
    requires Looking(cfg, s, e, t) && !Uncovers(e)
    requires e.Dropped? || e.Sealed?
    ensures Undisturbed(s, Apply(cfg, s, e), t)
  {}

  lemma EndDisturbsNothing(cfg: Config, s: State, e: Event, t: Target)
    requires Looking(cfg, s, e, t) && !Uncovers(e) && (e.RepairEnd? || e.RemountDetached? || e.RebindDetached?)
    ensures Undisturbed(s, Apply(cfg, s, e), t)
  {}

  // ---- a late publish that takes the record from a live mount ----

  function LateSteps(id: Id, st: Record): seq<Event> {
    [MountBegin(id, st)] + ([Saved(id, true)] + ([Started(id, false)] + ([RolledBack(id, true)] + [])))
  }

  lemma LateCons(cfg: Config, n: Node, e: Event, es: seq<Event>)
    requires MayStep(cfg, n, e) && LateRuns(cfg, Step(cfg, n, e), es)
    ensures LateRuns(cfg, n, [e] + es) && LateAfter(cfg, n, [e] + es) == LateAfter(cfg, Step(cfg, n, e), es)
  {
    assert ([e] + es)[1..] == es;
  }

  lemma {:induction false} LateAppend(cfg: Config, n: Node, a: seq<Event>, b: seq<Event>)
    requires LateRuns(cfg, n, a) && LateRuns(cfg, LateAfter(cfg, n, a), b)
    ensures LateRuns(cfg, n, a + b) && LateAfter(cfg, n, a + b) == LateAfter(cfg, LateAfter(cfg, n, a), b)
    decreases |a|
  {
    if a == [] {
      assert a + b == b;
    } else {
      assert (a + b)[0] == a[0] && (a + b)[1..] == a[1..] + b;
      LateAppend(cfg, Step(cfg, n, a[0]), a[1..], b);
    }
  }

  lemma LatePublishUnrecords(cfg: Config, s: State, id: Id, st: Record)
    requires Idle(s, id) && FitsConfig(cfg, id, st) && !IsView(st) && st.target in s.dirs && Serving(cfg, s, st.target)
    ensures LateRuns(cfg, Node(s, map[]), LateSteps(id, st))
    ensures var s' := LateAfter(cfg, Node(s, map[]), LateSteps(id, st)).s;
            Serving(cfg, s', st.target) && id !in s'.records
  {
    var n := Node(s, map[]);
    var n1 := Step(cfg, n, MountBegin(id, st));
    var n2 := Step(cfg, n1, Saved(id, true));
    FailsAndRollsBack(cfg, n2, id, st);
    var tail := [Started(id, false)] + ([RolledBack(id, true)] + []);
    LateCons(cfg, n1, Saved(id, true), tail);
    LateCons(cfg, n, MountBegin(id, st), [Saved(id, true)] + tail);
  }

  lemma FailsAndRollsBack(cfg: Config, n: Node, id: Id, st: Record)
    requires id in n.s.ops && n.s.ops[id] == Start(st, true)
    ensures var es := [Started(id, false)] + ([RolledBack(id, true)] + []);
            LateRuns(cfg, n, es) && var s' := LateAfter(cfg, n, es).s;
            s'.mounts == n.s.mounts && s'.daemons == n.s.daemons && id !in s'.records
  {
    var n1 := Step(cfg, n, Started(id, false));
    LateCons(cfg, n1, RolledBack(id, true), []);
    LateCons(cfg, n, Started(id, false), [RolledBack(id, true)] + []);
  }

  /** The reconcile of a dead union up to its unmount, and from there. */
  function UnmountsSteps(id: Id): seq<Event> {
    [ReconcileBegin(id, Dead)] + ([RemountDetached(id, true)] + [])
  }

  function StartsSteps(cfg: Config, id: Id): seq<Event> {
    [RemountStopped(id, true)] + ([Started(id, true)] + SealSteps(cfg, id))
  }

  lemma UnmountsRuns(cfg: Config, s: State, id: Id, st: Record)
    requires FitsConfig(cfg, id, st) && !IsView(st) && id !in s.ops && Holds(s, id, st) && Probe(s, st.target) == Dead
    ensures RunsTo(cfg, s, UnmountsSteps(id), Become(Detach(s, st.target), id, RemountStop(st)))
  {
    var s1 := Apply(cfg, s, ReconcileBegin(id, Dead));
    RunsCons(cfg, s1, RemountDetached(id, true), []);
    RunsCons(cfg, s, ReconcileBegin(id, Dead), [RemountDetached(id, true)] + []);
    assert s.ops[id := RemountDetach(st)][id := RemountStop(st)] == s.ops[id := RemountStop(st)];
  }

  lemma StartsRuns(cfg: Config, s: State, id: Id, st: Record)
    requires id in s.ops && s.ops[id] == RemountStop(st) && Holds(s, id, st) && st.target in s.dirs
    ensures Runs(cfg, s, StartsSteps(cfg, id))
    ensures var s' := After(cfg, s, StartsSteps(cfg, id));
            Serving(cfg, s', st.target) && id !in s'.ops && Holds(s', id, st) && st.target in s'.dirs
  {
    var s1 := Apply(cfg, s, RemountStopped(id, true));
    var s2 := Apply(cfg, s1, Started(id, true));
    if cfg.seal {
      RunsOne(cfg, s2, Sealed(id, true));
    }
    RunsCons(cfg, s1, Started(id, true), SealSteps(cfg, id));
    RunsCons(cfg, s, RemountStopped(id, true), [Started(id, true)] + SealSteps(cfg, id));
    StopPlays(cfg, s, id, st);
  }

  /** A daemon exits. While its reconcile has unmounted the target and not yet started anew,
      a publish looks: nothing is mounted. When it has the lock, the union serves again; the
      publish saves, fails to start, and takes the record with it. The union serves on, with no
      record. */
  lemma LatePublishOrphansTheLiving(cfg: Config, id: Id, st: Record) returns (looks: seq<Event>, es: seq<Event>)
    requires GoodConfig(cfg) && FitsConfig(cfg, id, st) && !IsView(st)
    ensures Runs(cfg, INITIAL, looks) && looks <= es && LateRuns(cfg, START, es)
    ensures var s := After(cfg, INITIAL, looks); st.target in s.dirs && st.target !in s.mounts
    ensures var s := LateAfter(cfg, START, es).s; Serving(cfg, s, st.target) && id !in s.records
  {
    var a := DeadAgain(cfg, id, st);
    UnmountsRuns(cfg, a, id, st);
    var b := Become(Detach(a, st.target), id, RemountStop(st));
    StartsRuns(cfg, b, id, st);
    var c := After(cfg, b, StartsSteps(cfg, id));
    LatePublishUnrecords(cfg, c, id, st);
    looks := PublishSteps(id, st) + DiesSteps(cfg, id) + UnmountsSteps(id);
    RunsAppend(cfg, INITIAL, PublishSteps(id, st) + DiesSteps(cfg, id), a, UnmountsSteps(id), b);
    RunsAppend(cfg, INITIAL, looks, b, StartsSteps(cfg, id), c);
    InitialInv(cfg);
    OnTimeRuns(cfg, INITIAL, looks + StartsSteps(cfg, id));
    LateAppend(cfg, START, looks + StartsSteps(cfg, id), LateSteps(id, st));
    es := looks + StartsSteps(cfg, id) + LateSteps(id, st);
  }

  lemma DeadAgain(cfg: Config, id: Id, st: Record) returns (s: State)
    requires GoodConfig(cfg) && FitsConfig(cfg, id, st) && !IsView(st)
    ensures RunsTo(cfg, INITIAL, PublishSteps(id, st) + DiesSteps(cfg, id), s)
    ensures id !in s.ops && Holds(s, id, st) && Probe(s, st.target) == Dead && st.target in s.dirs
  {
    PublishRuns(cfg, id, st);
    var a := After(cfg, INITIAL, PublishSteps(id, st));
    DiesRuns(cfg, a, id, st);
    s := After(cfg, a, DiesSteps(cfg, id));
    RunsAppend(cfg, INITIAL, PublishSteps(id, st), a, DiesSteps(cfg, id), s);
    InitialInv(cfg);
    RunKeepsInv(cfg, INITIAL, PublishSteps(id, st) + DiesSteps(cfg, id));
    assert VolumeOk(cfg, s, id);
  }

  // ---- a late view that is bound over the view ----

  function LateShareSteps(id: Id, st: Record): seq<Event> {
    [ShareBegin(id, st)] + ([Saved(id, true)] + ([ShareBound(id, true)] + UnmountSteps(id)))
  }

  /** While the target of v serves as a view, another publish of v begins late. The view is
      bound over the one that serves; the unpublish takes down one of the two, and the record. */
  lemma LateShareRuns(cfg: Config, s: State, v: Id, st: Record)
    requires FitsConfig(cfg, v, st) && IsView(st) && st.target in s.dirs && s.ops == map[]
    requires Serving(cfg, s, st.sharedFrom) && Serving(cfg, s, st.target) && s.mounts[st.target].owner != v
    ensures LateRuns(cfg, Node(s, map[]), LateShareSteps(v, st))
    ensures var s' := LateAfter(cfg, Node(s, map[]), LateShareSteps(v, st)).s;
            Serving(cfg, s', st.target) && v !in s'.records && s'.ops == map[]
  {
    var n := Node(s, map[]);
    var n1 := Step(cfg, n, ShareBegin(v, st));
    var n2 := Step(cfg, n1, Saved(v, true));
    BindsOver(cfg, n2, v, st);
    var n3 := Step(cfg, n2, ShareBound(v, true));
    LateUnmountRuns(cfg, n3, v);
    LateCons(cfg, n2, ShareBound(v, true), UnmountSteps(v));
    LateCons(cfg, n1, Saved(v, true), [ShareBound(v, true)] + UnmountSteps(v));
    LateCons(cfg, n, ShareBegin(v, st), [Saved(v, true)] + ([ShareBound(v, true)] + UnmountSteps(v)));
  }

  lemma BindsOver(cfg: Config, n: Node, v: Id, st: Record)
    requires n.s.ops == map[v := ShareBind(st)] && st.target in n.s.mounts && st.target in n.s.dirs && n.below == map[]
    requires Serving(cfg, n.s, st.sharedFrom)
    ensures MayStep(cfg, n, ShareBound(v, true))
    ensures var n', t := Step(cfg, n, ShareBound(v, true)), st.target;
            && Hidden(n', t) == [n.s.mounts[t]] && n'.s.ops == map[] && n'.s.daemons == n.s.daemons
            && n'.s.mounts == n.s.mounts[t := n.s.mounts[st.sharedFrom].(record := st)]
  {}

  lemma LateUnmountRuns(cfg: Config, n: Node, v: Id)
    requires v in cfg.targetOf && n.s.ops == map[] && cfg.targetOf[v] in n.s.mounts && |Hidden(n, cfg.targetOf[v])| == 1
    ensures LateRuns(cfg, n, UnmountSteps(v))
    ensures var s', t := LateAfter(cfg, n, UnmountSteps(v)).s, cfg.targetOf[v];
            && s'.ops == map[] && v !in s'.records && s'.mounts == n.s.mounts[t := Hidden(n, t)[0]]
            && s'.daemons == n.s.daemons - {v}
  {
    UnmountBegins(cfg, n, v);
    var n1 := n.(s := Become(n.s, v, UnmountDetach));
    var n2 := UnmountReveals(cfg, n1, v);
    RestOfUnmount(cfg, n2, v);
    var tail := [UnmountStopped(v, true)] + ([UnmountRemoved(v, true)] + []);
    LateCons(cfg, n1, UnmountDetached(v, true), tail);
    LateCons(cfg, n, UnmountBegin(v), [UnmountDetached(v, true)] + tail);
  }

  lemma UnmountBegins(cfg: Config, n: Node, v: Id)
    requires v in cfg.targetOf && n.s.ops == map[]
    ensures MayStep(cfg, n, UnmountBegin(v))
    ensures Step(cfg, n, UnmountBegin(v)) == n.(s := Become(n.s, v, UnmountDetach))
  {}

  lemma UnmountReveals(cfg: Config, n: Node, v: Id) returns (n': Node)
    requires v in cfg.targetOf && n.s.ops == map[v := UnmountDetach] && |Hidden(n, cfg.targetOf[v])| == 1
    ensures MayStep(cfg, n, UnmountDetached(v, true)) && n' == Step(cfg, n, UnmountDetached(v, true))
    ensures var s', t := n'.s, cfg.targetOf[v];
            && s'.ops == map[v := UnmountStop] && s'.mounts == n.s.mounts[t := Hidden(n, t)[0]]
            && s'.daemons == n.s.daemons
  {
    n' := Step(cfg, n, UnmountDetached(v, true));
  }

  lemma RestOfUnmount(cfg: Config, n: Node, v: Id)
    requires n.s.ops == map[v := UnmountStop]
    ensures var es := [UnmountStopped(v, true)] + ([UnmountRemoved(v, true)] + []);
            LateRuns(cfg, n, es) && LateAfter(cfg, n, es).s ==
              n.s.(daemons := n.s.daemons - {v}, records := n.s.records - {v}, ops := map[])
  {
    var n1 := n.(s := n.s.(daemons := n.s.daemons - {v}, ops := map[v := UnmountRemove]));
    ScopeStops(cfg, n, v);
    RecordGoes(cfg, n1, v);
    LateCons(cfg, n1, UnmountRemoved(v, true), []);
    LateCons(cfg, n, UnmountStopped(v, true), [UnmountRemoved(v, true)] + []);
  }

  lemma ScopeStops(cfg: Config, n: Node, v: Id)
    requires n.s.ops == map[v := UnmountStop]
    ensures MayStep(cfg, n, UnmountStopped(v, true))
    ensures Step(cfg, n, UnmountStopped(v, true)).s ==
              n.s.(daemons := n.s.daemons - {v}, ops := map[v := UnmountRemove])
    ensures Step(cfg, n, UnmountStopped(v, true)).below == n.below
  {}

  lemma RecordGoes(cfg: Config, n: Node, v: Id)
    requires n.s.ops == map[v := UnmountRemove]
    ensures MayStep(cfg, n, UnmountRemoved(v, true))
    ensures Step(cfg, n, UnmountRemoved(v, true)).s == n.s.(records := n.s.records - {v}, ops := map[])
  {
    assert n.s.ops - {v} == map[];
  }

  /** v is a view of a, and the daemon its mount is of has gone; a serves by another one. */
  lemma ViewLeftDead(cfg: Config, a: Id, v: Id) returns (es: seq<Event>, s: State)
    requires GoodConfig(cfg) && {a, v} <= cfg.targetOf.Keys && a != v
    ensures RunsTo(cfg, INITIAL, es, s) && s.ops == map[] && cfg.targetOf[v] in s.dirs
    ensures v in s.records && s.records[v] == ViewOf(cfg, v, a) && Probe(s, cfg.targetOf[v]) == Dead
    ensures SeenServing(cfg, s, a, v)
  {
    var ta, tv := cfg.targetOf[a], cfg.targetOf[v];
    assert ta in cfg.targetOf.Values;
    TargetsMade(cfg, ta, tv, tv);
    var s0 := INITIAL.(dirs := {ta, tv});
    assert {ta, tv, tv} == {ta, tv};
    var s1 := MountServes(cfg, s0, a, Own(cfg, a));
    var s2 := ShareServes(cfg, s1, v, ViewOf(cfg, v, a));
    UnmountRuns(cfg, s2, a);
    var s3 := Unmounted(s2, a, ta);
    s := MountServes(cfg, s3, a, Own(cfg, a));
    es := [TargetMade(ta)] + ([TargetMade(tv)] + [TargetMade(tv)]);
    RunsAppend(cfg, INITIAL, es, s0, MountSteps(cfg, a, Own(cfg, a)), s1);
    es := es + MountSteps(cfg, a, Own(cfg, a));
    RunsAppend(cfg, INITIAL, es, s1, ShareSteps(v, ViewOf(cfg, v, a)), s2);
    es := es + ShareSteps(v, ViewOf(cfg, v, a));
    RunsAppend(cfg, INITIAL, es, s2, UnmountSteps(a), s3);
    es := es + UnmountSteps(a);
    RunsAppend(cfg, INITIAL, es, s3, MountSteps(cfg, a, Own(cfg, a)), s);
    es := es + MountSteps(cfg, a, Own(cfg, a));
    assert s.mounts[tv] == s1.mounts[ta].(record := ViewOf(cfg, v, a));
    assert s.records[v] == s2.records[v];
  }

  ghost predicate SeenServing(cfg: Config, s: State, a: Id, v: Id)
    requires {a, v} <= cfg.targetOf.Keys
  {
    var ta, tv := cfg.targetOf[a], cfg.targetOf[v];
    ta != tv && ta != "" && tv in s.dirs && Serving(cfg, s, ta) && s.mounts[ta].owner == a
  }

  lemma UnbindRuns(cfg: Config, s: State, a: Id, v: Id) returns (m: State)
    requires {a, v} <= cfg.targetOf.Keys && SeenServing(cfg, s, a, v) && s.ops == map[]
    requires v in s.records && s.records[v] == ViewOf(cfg, v, a) && Probe(s, cfg.targetOf[v]) == Dead
    ensures RunsTo(cfg, s, [ReconcileBegin(v, Dead)] + [RebindDetached(v, true)], m)
    ensures SeenServing(cfg, m, a, v) && cfg.targetOf[v] !in m.mounts
    ensures m.ops == map[v := RebindBind(ViewOf(cfg, v, a))]
    ensures m.mounts == s.mounts - {cfg.targetOf[v]} && m.daemons == s.daemons && m.records == s.records
  {
    var s1 := Become(s, v, RebindDetach(ViewOf(cfg, v, a)));
    assert Apply(cfg, s, ReconcileBegin(v, Dead)) == s1;
    m := Apply(cfg, s1, RebindDetached(v, true));
    RunsOne(cfg, s1, RebindDetached(v, true));
    RunsCons(cfg, s, ReconcileBegin(v, Dead), [RebindDetached(v, true)]);
  }

  lemma BindsAnew(cfg: Config, m: State, a: Id, v: Id) returns (s: State)
    requires {a, v} <= cfg.targetOf.Keys && SeenServing(cfg, m, a, v) && cfg.targetOf[v] !in m.mounts
    requires m.ops == map[v := RebindBind(ViewOf(cfg, v, a))]
    ensures RunsTo(cfg, m, [RebindBound(v, true)], s) && SeenServing(cfg, s, a, v) && s.ops == map[]
    ensures Serving(cfg, s, cfg.targetOf[v]) && s.mounts[cfg.targetOf[v]].owner == a
    ensures s.mounts == m.mounts[cfg.targetOf[v] := s.mounts[cfg.targetOf[v]]] && s.daemons == m.daemons
  {
    s := Apply(cfg, m, RebindBound(v, true));
    RunsOne(cfg, m, RebindBound(v, true));
    assert s.ops == map[];
  }

  /** A view of a is dead. Its reconcile has unmounted it and not yet bound it again when a
      publish looks: nothing is mounted. When it has the lock the view serves again, and the
      publish binds it a second time, on top. The unpublish takes the upper one down and removes
      the record; the lower one serves on, with no record. */
  lemma LateShareStacks(cfg: Config, a: Id, v: Id) returns (looks: seq<Event>, es: seq<Event>)
    requires GoodConfig(cfg) && {a, v} <= cfg.targetOf.Keys && a != v
    ensures Runs(cfg, INITIAL, looks) && looks <= es && LateRuns(cfg, START, es)
    ensures var s, t := After(cfg, INITIAL, looks), cfg.targetOf[v]; t in s.dirs && t !in s.mounts
    ensures |es| >= 4 && es[|es| - 4..] == UnmountSteps(v)
    ensures var s := LateAfter(cfg, START, es).s; Serving(cfg, s, cfg.targetOf[v]) && v !in s.records
  {
    var s;
    looks, s := ViewLeftDead(cfg, a, v);
    var m := UnbindRuns(cfg, s, a, v);
    var s' := BindsAnew(cfg, m, a, v);
    RunsAppend(cfg, INITIAL, looks, s, [ReconcileBegin(v, Dead)] + [RebindDetached(v, true)], m);
    looks := looks + ([ReconcileBegin(v, Dead)] + [RebindDetached(v, true)]);
    RunsAppend(cfg, INITIAL, looks, m, [RebindBound(v, true)], s');
    InitialInv(cfg);
    OnTimeRuns(cfg, INITIAL, looks + [RebindBound(v, true)]);
    LateShareRuns(cfg, s', v, ViewOf(cfg, v, a));
    LateAppend(cfg, START, looks + [RebindBound(v, true)], LateShareSteps(v, ViewOf(cfg, v, a)));
    es := looks + [RebindBound(v, true)] + LateShareSteps(v, ViewOf(cfg, v, a));
    EndsInUnmount(looks + [RebindBound(v, true)], v, ViewOf(cfg, v, a));
  }

  lemma EndsInUnmount(front: seq<Event>, v: Id, st: Record)
    ensures var es := front + LateShareSteps(v, st); es[|es| - 4..] == UnmountSteps(v)
  {
    var es := front + LateShareSteps(v, st);
    assert es == front + [ShareBegin(v, st)] + [Saved(v, true)] + [ShareBound(v, true)] + UnmountSteps(v);
  }
}
