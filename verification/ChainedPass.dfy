/** The pass that does not mend everything (pkg/backend/mergerfs/reconcile_linux.go): a view of
    a view that is visited before the view it is of. */
module ChainedPass {
  import opened Argv
  import opened Supervision
  import opened SupervisionSafety
  import opened SupervisionRuns
  import opened SupervisionConvergence
  import opened SupervisionPasses
  import opened SharedChains

  // ---- whole reconciles of dead volumes ----

  lemma RemountWhole(cfg: Config, s: State, id: Id) returns (es: seq<Event>)
    requires GoodConfig(cfg) && Inv(cfg, s) && id !in s.ops && id in s.records && !IsView(s.records[id])
    requires Probe(s, s.records[id].target) == Dead
    ensures WholeReconcile(cfg, s, id, es)
  {
    assert VolumeOk(cfg, s, id);
    var s1 := Become(s, id, RemountDetach(s.records[id]));
    DeadBegins(cfg, s, id);
    RemountRuns(cfg, s1, id, s.records[id]);
    RunsCons(cfg, s, ReconcileBegin(id, Dead), RemountSteps(cfg, id));
    RemountPlays(cfg, s1, id, s.records[id]);
    es := [ReconcileBegin(id, Dead)] + RemountSteps(cfg, id);
    assert es[1..] == RemountSteps(cfg, id);
  }

  lemma DeadBegins(cfg: Config, s: State, id: Id)
    requires id !in s.ops && id in s.records && Probe(s, s.records[id].target) == Dead
    ensures Enabled(cfg, s, ReconcileBegin(id, Dead))
    ensures var st, s' := s.records[id], Apply(cfg, s, ReconcileBegin(id, Dead));
            s' == if !IsView(st) then Become(s, id, RemountDetach(st))
                  else if Serving(cfg, s, st.sharedFrom) then Become(s, id, RebindDetach(st)) else s
  {}

  lemma RemountRuns(cfg: Config, s: State, id: Id, st: Record)
    requires id in s.ops && s.ops[id] == RemountDetach(st) && st.target in s.dirs
    ensures Runs(cfg, s, RemountSteps(cfg, id))
  {
    var s1 := Become(Detach(s, st.target), id, RemountStop(st));
    var s2 := Become(s1.(daemons := s1.daemons - {id}), id, Start(st, false));
    var start := [Started(id, true)] + SealSteps(cfg, id);
    SealRuns(cfg, s2, id, st);
    assert Apply(cfg, s1, RemountStopped(id, true)) == s2;
    RunsCons(cfg, s1, RemountStopped(id, true), start);
    assert Apply(cfg, s, RemountDetached(id, true)) == s1;
    RunsCons(cfg, s, RemountDetached(id, true), [RemountStopped(id, true)] + start);
  }

  lemma RebindWhole(cfg: Config, s: State, id: Id) returns (es: seq<Event>)
    requires GoodConfig(cfg) && Inv(cfg, s) && id !in s.ops && id in s.records && IsView(s.records[id])
    requires Probe(s, s.records[id].target) == Dead && Serving(cfg, s, s.records[id].sharedFrom)
    ensures WholeReconcile(cfg, s, id, es)
  {
    assert VolumeOk(cfg, s, id);
    var s1 := Become(s, id, RebindDetach(s.records[id]));
    DeadBegins(cfg, s, id);
    RebindRuns(cfg, s1, id, s.records[id]);
    RunsCons(cfg, s, ReconcileBegin(id, Dead), RebindSteps(id));
    RebindPlays(cfg, s1, id, s.records[id]);
    es := [ReconcileBegin(id, Dead)] + RebindSteps(id);
    assert es[1..] == RebindSteps(id);
  }

  lemma RebindRuns(cfg: Config, s: State, id: Id, st: Record)
    requires id in s.ops && s.ops[id] == RebindDetach(st) && st.target in s.dirs && st.target != st.sharedFrom
    requires Serving(cfg, s, st.sharedFrom)
    ensures Runs(cfg, s, RebindSteps(id))
  {
    var s1 := Become(Detach(s, st.target), id, RebindBind(st));
    RunsOne(cfg, s1, RebindBound(id, true));
    assert Apply(cfg, s, RebindDetached(id, true)) == s1;
    RunsCons(cfg, s, RebindDetached(id, true), [RebindBound(id, true)]);
  }

  lemma SkipWhole(cfg: Config, s: State, id: Id) returns (es: seq<Event>)
    requires id !in s.ops && id in s.records && IsView(s.records[id])
    requires Probe(s, s.records[id].target) == Dead && !Serving(cfg, s, s.records[id].sharedFrom)
    ensures WholeReconcile(cfg, s, id, es)
  {
    es := [ReconcileBegin(id, Dead)];
    RunsOne(cfg, s, ReconcileBegin(id, Dead));
    assert es[1..] == [];
  }

  lemma DeadIsWhole(cfg: Config, s: State, id: Id) returns (es: seq<Event>)
    requires GoodConfig(cfg) && Inv(cfg, s) && id !in s.ops && id in s.records && Probe(s, s.records[id].target) == Dead
    ensures WholeReconcile(cfg, s, id, es)
  {
    if !IsView(s.records[id]) {
      es := RemountWhole(cfg, s, id);
    } else if Serving(cfg, s, s.records[id].sharedFrom) {
      es := RebindWhole(cfg, s, id);
    } else {
      es := SkipWhole(cfg, s, id);
    }
  }

  /** A pass over volumes that are all dead, whatever their records say. */
  lemma DeadPass(cfg: Config, s: State, ids: seq<Id>) returns (runs: seq<seq<Event>>, states: seq<State>)
    requires GoodConfig(cfg) && Inv(cfg, s) && s.ops == map[] && PassOrder(s, ids)
    requires forall id | id in s.records :: Probe(s, s.records[id].target) == Dead
    ensures PassTrace(cfg, ids, runs, states) && states[0] == s
  {
    TargetsAreTheirs(cfg, s, ids);
    runs, states := [], [s];
    for i := 0 to |ids|
      invariant |runs| == i && PassTrace(cfg, ids[..i], runs, states) && states[0] == s
      invariant states[i].ops == map[] && Inv(cfg, states[i])
      invariant forall k | i <= k < |ids| ::
                  ids[k] in states[i].records && states[i].records[ids[k]] == s.records[ids[k]]
      invariant forall k | i <= k < |ids| :: Probe(states[i], s.records[ids[k]].target) == Dead
    {
      var m := states[i];
      var es := DeadIsWhole(cfg, m, ids[i]);
      ReconcileEffect(cfg, m, ids[i], es);
      var next := After(cfg, m, es);
      LaterStayDead(cfg, s, ids, i, m, next);
      RunKeepsInv(cfg, m, es);
      Longer(cfg, ids, i, runs, states, es, next);
      runs, states := runs + [es], states + [next];
    }
    assert ids[..|ids|] == ids;
  }

  lemma Longer(cfg: Config, ids: seq<Id>, i: nat, runs: seq<seq<Event>>, states: seq<State>, es: seq<Event>,
               next: State)
    requires i < |ids| && |runs| == i && PassTrace(cfg, ids[..i], runs, states) && ids[i] !in states[0].ops
    requires WholeReconcile(cfg, states[i], ids[i], es) && next == After(cfg, states[i], es)
    ensures PassTrace(cfg, ids[..i + 1], runs + [es], states + [next])
  {
    var ids', runs', states' := ids[..i + 1], runs + [es], states + [next];
    assert ids' == ids[..i] + [ids[i]];
    forall k | 0 <= k <= i
      ensures WholeReconcile(cfg, states'[k], ids'[k], runs'[k]) && states'[k + 1] == After(cfg, states'[k], runs'[k])
    {
      assert k < i ==> ids'[k] == ids[..i][k] && WholeReconcile(cfg, states[k], ids[..i][k], runs[k]);
    }
  }

  lemma LaterStayDead(cfg: Config, s: State, ids: seq<Id>, i: nat, m: State, next: State)
    requires GoodConfig(cfg) && Inv(cfg, s) && Inv(cfg, m) && PassOrder(s, ids)
    requires i < |ids| && Effect(cfg, m, ids[i], next)
    requires forall k | i <= k < |ids| ::
               ids[k] in m.records && ids[k] in s.records && m.records[ids[k]] == s.records[ids[k]]
    requires forall k | i <= k < |ids| :: Probe(m, s.records[ids[k]].target) == Dead
    ensures forall k | i < k < |ids| :: ids[k] in next.records && next.records[ids[k]] == s.records[ids[k]]
    ensures forall k | i < k < |ids| :: Probe(next, s.records[ids[k]].target) == Dead
  {
    forall k | i < k < |ids| ensures Probe(next, s.records[ids[k]].target) == Dead {
      OneVisit(cfg, s, ids, k);
      TargetsAreTheirs(cfg, s, ids);
      OthersKeepAnswering(cfg, m, ids[i], next, s.records[ids[k]].target);
    }
  }

  // ---- the node on which a pass leaves work ----

  function UnmountSteps(id: Id): seq<Event> {
    [UnmountBegin(id)]
    + ([UnmountDetached(id, true)] + ([UnmountStopped(id, true)] + ([UnmountRemoved(id, true)] + [])))
  }

  function Unmounted(s: State, id: Id, t: Target): State {
    Detach(s, t).(daemons := s.daemons - {id}, records := s.records - {id})
  }

  lemma UnmountRuns(cfg: Config, s: State, id: Id)
    requires id in cfg.targetOf && s.ops == map[]
    ensures var t := cfg.targetOf[id];
            RunsTo(cfg, s, UnmountSteps(id), Unmounted(s, id, t))
  {
    var s1 := Apply(cfg, s, UnmountBegin(id));
    var s2 := Apply(cfg, s1, UnmountDetached(id, true));
    var s3 := Apply(cfg, s2, UnmountStopped(id, true));
    var s4 := Apply(cfg, s3, UnmountRemoved(id, true));
    RunsCons(cfg, s3, UnmountRemoved(id, true), []);
    RunsCons(cfg, s2, UnmountStopped(id, true), [UnmountRemoved(id, true)] + []);
    var tail := [UnmountStopped(id, true)] + ([UnmountRemoved(id, true)] + []);
    RunsCons(cfg, s1, UnmountDetached(id, true), tail);
    RunsCons(cfg, s, UnmountBegin(id), [UnmountDetached(id, true)] + tail);
    assert s4.ops == map[];
  }

  /** a is a union, b a view of it and c a view of b, and all three are dead. */
  ghost predicate DeadChain(cfg: Config, s: State, a: Id, b: Id, c: Id)
    requires {a, b, c} <= cfg.targetOf.Keys
  {
    && s.ops == map[] && s.records == map[b := ViewOf(cfg, b, a), c := ViewOf(cfg, c, b), a := Own(cfg, a)]
    && Probe(s, cfg.targetOf[a]) == Dead && Probe(s, cfg.targetOf[b]) == Dead && Probe(s, cfg.targetOf[c]) == Dead
  }

  lemma ViewOfUnmounted(cfg: Config, s: State, b: Id, c: Id) returns (es: seq<Event>, s': State)
    requires GoodConfig(cfg) && {b, c} <= cfg.targetOf.Keys && b != c
    requires s.ops == map[] && s.mounts == map[] && s.daemons == map[] && s.records == map[]
    requires cfg.targetOf[b] in s.dirs && cfg.targetOf[c] in s.dirs
    ensures RunsTo(cfg, s, es, s') && s'.ops == map[] && s'.dirs == s.dirs && s'.records == map[c := ViewOf(cfg, c, b)]
    ensures s'.daemons == map[] && s'.mounts.Keys == {cfg.targetOf[c]} && s'.mounts[cfg.targetOf[c]].owner == b
  {
    var s1 := MountServes(cfg, s, b, Own(cfg, b));
    var s2 := ShareServes(cfg, s1, c, ViewOf(cfg, c, b));
    UnmountRuns(cfg, s2, b);
    var t := cfg.targetOf[b];
    s' := Unmounted(s2, b, t);
    RunsAppend(cfg, s, MountSteps(cfg, b, Own(cfg, b)), s1, ShareSteps(c, ViewOf(cfg, c, b)), s2);
    es := MountSteps(cfg, b, Own(cfg, b)) + ShareSteps(c, ViewOf(cfg, c, b));
    RunsAppend(cfg, s, es, s2, UnmountSteps(b), s');
    es := es + UnmountSteps(b);
  }

  lemma MountViewExit(cfg: Config, s: State, a: Id, b: Id, c: Id) returns (es: seq<Event>, s': State)
    requires GoodConfig(cfg) && {a, b, c} <= cfg.targetOf.Keys && a != b && b != c && a != c && s.ops == map[]
    requires cfg.targetOf[a] in s.dirs && cfg.targetOf[b] in s.dirs && s.records == map[c := ViewOf(cfg, c, b)]
    requires s.daemons == map[] && s.mounts.Keys == {cfg.targetOf[c]} && s.mounts[cfg.targetOf[c]].owner == b
    ensures RunsTo(cfg, s, es, s') && DeadChain(cfg, s', a, b, c)
  {
    var s1 := MountServes(cfg, s, a, Own(cfg, a));
    var s2 := ShareServes(cfg, s1, b, ViewOf(cfg, b, a));
    s' := Apply(cfg, s2, DaemonExit(a));
    RunsAppend(cfg, s, MountSteps(cfg, a, Own(cfg, a)), s1, ShareSteps(b, ViewOf(cfg, b, a)), s2);
    es := MountSteps(cfg, a, Own(cfg, a)) + ShareSteps(b, ViewOf(cfg, b, a));
    Extend(cfg, s, es, s2, DaemonExit(a));
    es := es + [DaemonExit(a)];
    assert s'.daemons == map[];
  }

  lemma DeadChainRuns(cfg: Config, a: Id, b: Id, c: Id) returns (es: seq<Event>, s: State)
    requires GoodConfig(cfg) && {a, b, c} <= cfg.targetOf.Keys && a != b && b != c && a != c
    ensures RunsTo(cfg, INITIAL, es, s) && DeadChain(cfg, s, a, b, c)
  {
    var ta, tb, tc := cfg.targetOf[a], cfg.targetOf[b], cfg.targetOf[c];
    TargetsMade(cfg, ta, tb, tc);
    var made := [TargetMade(ta)] + ([TargetMade(tb)] + [TargetMade(tc)]);
    var s0 := INITIAL.(dirs := {ta, tb, tc});
    var first, s1 := ViewOfUnmounted(cfg, s0, b, c);
    var second;
    second, s := MountViewExit(cfg, s1, a, b, c);
    RunsAppend(cfg, INITIAL, made, s0, first, s1);
    RunsAppend(cfg, INITIAL, made + first, s1, second, s);
    es := made + first + second;
  }

  lemma ChainComesTooEarly(cfg: Config, s: State, a: Id, b: Id, c: Id)
    requires GoodConfig(cfg) && Inv(cfg, s) && {a, b, c} <= cfg.targetOf.Keys && a != b && b != c && a != c
    requires DeadChain(cfg, s, a, b, c)
    ensures PassOrder(s, [a, c, b]) && Lists(s, [a, c, b]) && ComesTooEarly(cfg, s, [a, c, b], 1)
  {
    var ids := [a, c, b];
    assert cfg.targetOf[a] in cfg.targetOf.Values && cfg.targetOf[b] in cfg.targetOf.Values;
    assert PassOrder(s, ids);
    OneVisit(cfg, s, ids, 0);
    OneVisit(cfg, s, ids, 2);
    assert s.records[ids[2]].target == s.records[ids[1]].sharedFrom;
    assert s.records[ids[0]].target == s.records[ids[2]].sharedFrom;
    assert WillServe(cfg, s, ids, 0);
    assert WillServe(cfg, s, ids, 2);
  }

  /** Volume b mounts and c views it; b is unpublished, a mounts, and b is published again as a
      view of a; then the daemon of a exits. A pass that visits c before b, as its order allows,
      leaves c dead although b serves, so a second pass is not idle. */
  lemma OnePassIsNotEnough(cfg: Config, a: Id, b: Id, c: Id)
    returns (es: seq<Event>, runs: seq<seq<Event>>, states: seq<State>)
    requires GoodConfig(cfg) && {a, b, c} <= cfg.targetOf.Keys && a != b && b != c && a != c
    ensures PassTrace(cfg, [a, c, b], runs, states) && RunsTo(cfg, INITIAL, es, states[0])
    ensures PassOrder(states[0], [a, c, b]) && NeedsRepair(cfg, states[3], c)
  {
    var s;
    es, s := DeadChainRuns(cfg, a, b, c);
    InitialInv(cfg);
    RunKeepsInv(cfg, INITIAL, es);
    ChainComesTooEarly(cfg, s, a, b, c);
    runs, states := DeadPass(cfg, s, [a, c, b]);
    LeftToRepairIff(cfg, [a, c, b], runs, states, 1);
  }
}
