/** With a publish that begins late a reconcile can stop a daemon that serves
    (pkg/backend/mergerfs/reconcile_linux.go): the one by its name, when what it saw dead was the
    mount of another. */
module LateStops {
  import opened Argv
  import opened Supervision
  import opened SupervisionSafety
  import opened SupervisionRuns
  import opened SupervisionServing
  import opened SharedChains
  import opened ChainedPass
  import opened LatePublish
  import opened LateServing

  /** The daemon of v serves w. */
  ghost predicate Serves(cfg: Config, s: State, v: Id, w: Id)
    requires {v, w} <= cfg.targetOf.Keys
  {
    var t := cfg.targetOf[w];
    t in s.mounts && s.mounts[t].owner == v && Probe(s, t) == Live
  }

  ghost predicate Apart(cfg: Config, a: Id, v: Id, w: Id) {
    && GoodConfig(cfg) && {a, v, w} <= cfg.targetOf.Keys && a != v && v != w && a != w
    && cfg.targetOf[a] != cfg.targetOf[v] && cfg.targetOf[v] != cfg.targetOf[w] && cfg.targetOf[a] != cfg.targetOf[w]
    && cfg.targetOf[a] != "" && cfg.targetOf[v] != ""
  }

  // ---- a daemon that outlives its volume ----

  function HalfUnmountSteps(v: Id): seq<Event> {
    [UnmountBegin(v)]
    + ([UnmountDetached(v, true)] + ([UnmountStopped(v, false)] + ([UnmountRemoved(v, true)] + [])))
  }

  /** The stop fails, which an unpublish tolerates. */
  lemma HalfUnmountRuns(cfg: Config, s: State, v: Id)
    requires v in cfg.targetOf && s.ops == map[]
    ensures RunsTo(cfg, s, HalfUnmountSteps(v), Detach(s, cfg.targetOf[v]).(records := s.records - {v}))
  {
    var s1 := Become(s, v, UnmountDetach);
    var s2 := Become(Detach(s, cfg.targetOf[v]), v, UnmountStop);
    assert Apply(cfg, s1, UnmountDetached(v, true)) == s2;
    ScopeStays(cfg, s2, v);
    var tail := [UnmountStopped(v, false)] + ([UnmountRemoved(v, true)] + []);
    RunsCons(cfg, s1, UnmountDetached(v, true), tail);
    RunsCons(cfg, s, UnmountBegin(v), [UnmountDetached(v, true)] + tail);
  }

  lemma ScopeStays(cfg: Config, s: State, v: Id)
    requires s.ops == map[v := UnmountStop]
    ensures RunsTo(cfg, s, [UnmountStopped(v, false)] + ([UnmountRemoved(v, true)] + []),
                   s.(records := s.records - {v}, ops := map[]))
  {
    var s1 := Become(s, v, UnmountRemove);
    assert s1.ops - {v} == map[];
    assert Apply(cfg, s1, UnmountRemoved(v, true)) == s.(records := s.records - {v}, ops := map[]);
    RunsCons(cfg, s1, UnmountRemoved(v, true), []);
    RunsCons(cfg, s, UnmountStopped(v, false), [UnmountRemoved(v, true)] + []);
  }

  lemma DaemonStays(cfg: Config, a: Id, v: Id, w: Id) returns (es: seq<Event>, s: State)
    requires Apart(cfg, a, v, w)
    ensures RunsTo(cfg, INITIAL, es, s) && s.ops == map[] && Serves(cfg, s, v, w)
    ensures cfg.targetOf[a] in s.dirs && cfg.targetOf[v] in s.dirs && s.mounts.Keys == {cfg.targetOf[w]}
  {
    var ta, tv, tw := cfg.targetOf[a], cfg.targetOf[v], cfg.targetOf[w];
    TargetsMade(cfg, ta, tv, tw);
    var s0 := INITIAL.(dirs := {ta, tv, tw});
    var s1 := MountServes(cfg, s0, v, Own(cfg, v));
    var s2 := ShareServes(cfg, s1, w, ViewOf(cfg, w, v));
    HalfUnmountRuns(cfg, s2, v);
    s := Detach(s2, tv).(records := s2.records - {v});
    es := [TargetMade(ta)] + ([TargetMade(tv)] + [TargetMade(tw)]);
    RunsAppend(cfg, INITIAL, es, s0, MountSteps(cfg, v, Own(cfg, v)), s1);
    es := es + MountSteps(cfg, v, Own(cfg, v));
    RunsAppend(cfg, INITIAL, es, s1, ShareSteps(w, ViewOf(cfg, w, v)), s2);
    es := es + ShareSteps(w, ViewOf(cfg, w, v));
    RunsAppend(cfg, INITIAL, es, s2, HalfUnmountSteps(v), s);
    es := es + HalfUnmountSteps(v);
  }

  // ---- the volume published again, as a view ----

  ghost predicate ViewDead(cfg: Config, s: State, a: Id, v: Id)
    requires {a, v} <= cfg.targetOf.Keys
  {
    && s.ops == map[] && SeenServing(cfg, s, a, v) && v in s.records && s.records[v] == ViewOf(cfg, v, a)
    && Probe(s, cfg.targetOf[v]) == Dead
  }

  lemma ViewDies(cfg: Config, s: State, a: Id, v: Id, w: Id) returns (es: seq<Event>, s': State)
    requires Apart(cfg, a, v, w) && s.ops == map[] && Serves(cfg, s, v, w)
    requires cfg.targetOf[a] in s.dirs && cfg.targetOf[v] in s.dirs && s.mounts.Keys == {cfg.targetOf[w]}
    ensures RunsTo(cfg, s, es, s') && ViewDead(cfg, s', a, v) && Serves(cfg, s', v, w)
  {
    var ta, tv := cfg.targetOf[a], cfg.targetOf[v];
    var s1 := MountServes(cfg, s, a, Own(cfg, a));
    var s2 := ShareServes(cfg, s1, v, ViewOf(cfg, v, a));
    UnmountRuns(cfg, s2, a);
    var s3 := Unmounted(s2, a, ta);
    s' := MountServes(cfg, s3, a, Own(cfg, a));
    es := MountSteps(cfg, a, Own(cfg, a));
    RunsAppend(cfg, s, es, s1, ShareSteps(v, ViewOf(cfg, v, a)), s2);
    es := es + ShareSteps(v, ViewOf(cfg, v, a));
    RunsAppend(cfg, s, es, s2, UnmountSteps(a), s3);
    es := es + UnmountSteps(a);
    RunsAppend(cfg, s, es, s3, MountSteps(cfg, a, Own(cfg, a)), s');
    es := es + MountSteps(cfg, a, Own(cfg, a));
    assert s'.mounts[tv] == s1.mounts[ta].(record := ViewOf(cfg, v, a));
    assert s'.mounts[cfg.targetOf[w]] == s.mounts[cfg.targetOf[w]];
  }

  // ---- and then late as a union ----

  /** A late publish of v as a union gets as far as its record before the driver restarts; the
      daemon of a exits; the reconcile of v takes the dead view down. */
  function LateUnionSteps(v: Id, st: Record, a: Id): seq<Event> {
    [MountBegin(v, st)] + ([Saved(v, true)] + ([DriverRestart] + ([DaemonExit(a)]
    + ([ReconcileBegin(v, Dead)] + ([RemountDetached(v, true)] + [])))))
  }

  lemma LateUnionRuns(cfg: Config, s: State, a: Id, v: Id, w: Id)
    requires Apart(cfg, a, v, w) && s.ops == map[] && SeenServing(cfg, s, a, v) && Serves(cfg, s, v, w)
    requires Serving(cfg, s, cfg.targetOf[v]) && s.mounts[cfg.targetOf[v]].owner == a
    ensures LateRuns(cfg, Node(s, map[]), LateUnionSteps(v, Own(cfg, v), a))
    ensures var n := LateAfter(cfg, Node(s, map[]), LateUnionSteps(v, Own(cfg, v), a));
            Serves(cfg, n.s, v, w) && v in n.s.ops && n.s.ops[v] == RemountStop(Own(cfg, v))
  {
    var st := Own(cfg, v);
    LateBegins(cfg, s, v);
    SavesAndTakesDown(cfg, s, a, v, w);
    var tail := [DaemonExit(a)] + ([ReconcileBegin(v, Dead)] + ([RemountDetached(v, true)] + []));
    LateCons(cfg, Node(s, map[]), MountBegin(v, st), [Saved(v, true)] + ([DriverRestart] + tail));
  }

  lemma SavesAndTakesDown(cfg: Config, s: State, a: Id, v: Id, w: Id)
    requires Apart(cfg, a, v, w) && s.ops == map[] && Serves(cfg, s, v, w)
    requires Serving(cfg, s, cfg.targetOf[v]) && s.mounts[cfg.targetOf[v]].owner == a
    ensures var tail := [DaemonExit(a)] + ([ReconcileBegin(v, Dead)] + ([RemountDetached(v, true)] + []));
            var n, es := Node(Become(s, v, MountSave(Own(cfg, v))), map[]), [Saved(v, true)] + ([DriverRestart] + tail);
            && LateRuns(cfg, n, es) && var n' := LateAfter(cfg, n, es);
            Serves(cfg, n'.s, v, w) && v in n'.s.ops && n'.s.ops[v] == RemountStop(Own(cfg, v))
  {
    var st := Own(cfg, v);
    SavesAndRestarts(cfg, Become(s, v, MountSave(st)), v, st);
    TakesDown(cfg, s.(records := s.records[v := st], ops := map[], stale := map[]), a, v, w);
    var tail := [DaemonExit(a)] + ([ReconcileBegin(v, Dead)] + ([RemountDetached(v, true)] + []));
    LateAppend(cfg, Node(Become(s, v, MountSave(st)), map[]), [Saved(v, true)] + ([DriverRestart] + []), tail);
    assert [Saved(v, true)] + ([DriverRestart] + []) + tail == [Saved(v, true)] + ([DriverRestart] + tail);
  }

  lemma LateBegins(cfg: Config, s: State, v: Id)
    requires v in cfg.targetOf && Idle(s, v) && cfg.targetOf[v] in s.mounts
    ensures MayStep(cfg, Node(s, map[]), MountBegin(v, Own(cfg, v)))
    ensures Step(cfg, Node(s, map[]), MountBegin(v, Own(cfg, v))) == Node(Become(s, v, MountSave(Own(cfg, v))), map[])
  {}

  lemma SavesAndRestarts(cfg: Config, s: State, v: Id, st: Record)
    requires v in s.ops && s.ops[v] == MountSave(st)
    ensures var es := [Saved(v, true)] + ([DriverRestart] + []);
            LateRuns(cfg, Node(s, map[]), es) && LateAfter(cfg, Node(s, map[]), es) ==
              Node(s.(records := s.records[v := st], ops := map[], stale := map[]), map[])
  {
    var n1 := Step(cfg, Node(s, map[]), Saved(v, true));
    LateCons(cfg, n1, DriverRestart, []);
    LateCons(cfg, Node(s, map[]), Saved(v, true), [DriverRestart] + []);
  }

  lemma TakesDown(cfg: Config, s: State, a: Id, v: Id, w: Id)
    requires Apart(cfg, a, v, w) && s.ops == map[] && v in s.records && s.records[v] == Own(cfg, v)
    requires Serves(cfg, s, v, w) && Serving(cfg, s, cfg.targetOf[v]) && s.mounts[cfg.targetOf[v]].owner == a
    ensures var es := [DaemonExit(a)] + ([ReconcileBegin(v, Dead)] + ([RemountDetached(v, true)] + []));
            LateRuns(cfg, Node(s, map[]), es) && var n := LateAfter(cfg, Node(s, map[]), es);
            Serves(cfg, n.s, v, w) && v in n.s.ops && n.s.ops[v] == RemountStop(Own(cfg, v))
  {
    var s1 := s.(daemons := s.daemons - {a});
    var s2 := Become(s1, v, RemountDetach(Own(cfg, v)));
    Exits(cfg, s, a);
    Begins(cfg, s1, v);
    Detaches(cfg, s2, v);
    LateCons(cfg, Node(s2, map[]), RemountDetached(v, true), []);
    LateCons(cfg, Node(s1, map[]), ReconcileBegin(v, Dead), [RemountDetached(v, true)] + []);
    LateCons(cfg, Node(s, map[]), DaemonExit(a), [ReconcileBegin(v, Dead)] + ([RemountDetached(v, true)] + []));
  }

  lemma Exits(cfg: Config, s: State, a: Id)
    requires a in s.daemons
    ensures MayStep(cfg, Node(s, map[]), DaemonExit(a))
    ensures Step(cfg, Node(s, map[]), DaemonExit(a)) == Node(s.(daemons := s.daemons - {a}), map[])
  {}

  lemma Begins(cfg: Config, s: State, v: Id)
    requires v in cfg.targetOf && Idle(s, v) && Holds(s, v, Own(cfg, v)) && Probe(s, cfg.targetOf[v]) == Dead
    ensures MayStep(cfg, Node(s, map[]), ReconcileBegin(v, Dead))
    ensures Step(cfg, Node(s, map[]), ReconcileBegin(v, Dead)) ==
              Node(Become(s, v, RemountDetach(Own(cfg, v))), map[])
  {}

  lemma Detaches(cfg: Config, s: State, v: Id)
    requires v in cfg.targetOf && v in s.ops && s.ops[v] == RemountDetach(Own(cfg, v))
    ensures MayStep(cfg, Node(s, map[]), RemountDetached(v, true))
    ensures Step(cfg, Node(s, map[]), RemountDetached(v, true)) ==
              Node(Become(Detach(s, cfg.targetOf[v]), v, RemountStop(Own(cfg, v))), map[])
  {}

  /** v mounts and w views it; v is unpublished, and its daemon lives on for w. Then v is
      published again as a view of a. While its reconcile binds it anew, a publish of v as a
      union looks, and it saves its record once the view serves. When a dies the reconcile of v
      finds a union that is dead, and stops the daemon of v: w, which answered, is dead. */
  lemma LateReconcileDisturbs(cfg: Config, a: Id, v: Id, w: Id)
    returns (looks: seq<Event>, es: seq<Event>, n: Node)
    requires GoodConfig(cfg) && {a, v, w} <= cfg.targetOf.Keys && a != v && v != w && a != w
    ensures Runs(cfg, INITIAL, looks) && looks <= es && Reached(cfg, es, n)
    ensures var s, t := After(cfg, INITIAL, looks), cfg.targetOf[v]; t in s.dirs && t !in s.mounts
    ensures var e, t := RemountStopped(v, true), cfg.targetOf[w];
            && MayStep(cfg, n, e) && OfReconcile(n.s, e) && t in n.s.mounts && Answers(n.s, t)
            && !Undisturbed(n.s, Step(cfg, n, e).s, t)
  {
    assert cfg.targetOf[a] in cfg.targetOf.Values && cfg.targetOf[v] in cfg.targetOf.Values;
    var before, m, s := LooksAndRebinds(cfg, a, v, w);
    looks := before;
    InitialInv(cfg);
    var onTime := looks + [RebindBound(v, true)];
    OnTimeRuns(cfg, INITIAL, onTime);
    LateUnionRuns(cfg, s, a, v, w);
    LateAppend(cfg, START, onTime, LateUnionSteps(v, Own(cfg, v), a));
    es := onTime + LateUnionSteps(v, Own(cfg, v), a);
    n := LateAfter(cfg, START, es);
    StopDisturbs(cfg, es, n, v, w);
  }

  lemma StopDisturbs(cfg: Config, es: seq<Event>, n: Node, v: Id, w: Id)
    requires Reached(cfg, es, n) && {v, w} <= cfg.targetOf.Keys && Serves(cfg, n.s, v, w)
    requires v in n.s.ops && n.s.ops[v] == RemountStop(Own(cfg, v))
    ensures MayStep(cfg, n, RemountStopped(v, true)) && OfReconcile(n.s, RemountStopped(v, true))
    ensures !Undisturbed(n.s, Step(cfg, n, RemountStopped(v, true)).s, cfg.targetOf[w])
  {
    assert MayStep(cfg, n, RemountStopped(v, true));
    LateDisturbsIff(cfg, es, n, RemountStopped(v, true), cfg.targetOf[w]);
  }

  lemma LooksAndRebinds(cfg: Config, a: Id, v: Id, w: Id) returns (looks: seq<Event>, m: State, s: State)
    requires Apart(cfg, a, v, w)
    ensures RunsTo(cfg, INITIAL, looks, m) && cfg.targetOf[v] in m.dirs && cfg.targetOf[v] !in m.mounts
    ensures RunsTo(cfg, INITIAL, looks + [RebindBound(v, true)], s)
    ensures s.ops == map[] && SeenServing(cfg, s, a, v) && Serves(cfg, s, v, w)
    ensures Serving(cfg, s, cfg.targetOf[v]) && s.mounts[cfg.targetOf[v]].owner == a
  {
    var s1, more, s2;
    looks, s1 := DaemonStays(cfg, a, v, w);
    more, s2 := ViewDies(cfg, s1, a, v, w);
    RunsAppend(cfg, INITIAL, looks, s1, more, s2);
    m := UnbindRuns(cfg, s2, a, v);
    s := BindsAnew(cfg, m, a, v);
    RunsAppend(cfg, INITIAL, looks + more, s2, [ReconcileBegin(v, Dead)] + [RebindDetached(v, true)], m);
    looks := looks + more + ([ReconcileBegin(v, Dead)] + [RebindDetached(v, true)]);
    RunsAppend(cfg, INITIAL, looks, m, [RebindBound(v, true)], s);
    assert s.mounts[cfg.targetOf[w]] == s2.mounts[cfg.targetOf[w]];
  }
}
