/** Views of views: with decisions that change when a volume is published again, a chain of
    views can arise (pkg/driver/node.go, pkg/backend/mergerfs/mount_linux.go). Here is exactly
    when. */
module SharedChains {
  import opened Argv
  import opened Supervision
  import opened SupervisionSafety
  import opened SupervisionRuns
  import opened SupervisionServing
  import opened SupervisionConvergence

  /** Saving st for id makes it a view of a view, or the source of another view a view. */
  ghost predicate MakesChain(records: map<Id, Record>, id: Id, st: Record) {
    IsView(st) && (
      || st.sharedFrom == st.target
      || (exists x :: x in records && x != id && records[x].target == st.sharedFrom && IsView(records[x]))
      || (exists x :: x in records && x != id && records[x].sharedFrom == st.target))
  }

  lemma SaveChainsIff(records: map<Id, Record>, id: Id, st: Record)
    requires ShortChains(records) && st.target != "" && forall x | x in records :: records[x].target != ""
    ensures ShortChains(records[id := st]) <==> !MakesChain(records, id, st)
  {
    var more := records[id := st];
    assert more[id] == st && forall x | x in records && x != id :: x in more && more[x] == records[x];
    if ShortChains(more) {
      assert more[id].target == more[id].sharedFrom ==> !IsView(more[id]);
      forall x | x in records && x != id
        ensures !(IsView(st) && records[x].sharedFrom == st.target)
        ensures !(records[x].target == st.sharedFrom && IsView(records[x]))
      {
        assert more[id].target == more[x].sharedFrom ==> !IsView(more[id]);
        assert more[x].target == more[id].sharedFrom ==> !IsView(more[x]);
      }
    } else {
      var view, source :|
        view in more && source in more && more[source].target == more[view].sharedFrom && IsView(more[source]);
      assert view == id || source == id;
    }
  }

  /** The step saves a record that makes a chain. */
  ghost predicate Chains(s: State, e: Event) {
    e.Saved? && e.ok && e.id in s.ops && (s.ops[e.id].MountSave? || s.ops[e.id].ShareSave?) &&
      MakesChain(s.records, e.id, s.ops[e.id].st)
  }

  lemma FewerChains(records: map<Id, Record>, fewer: map<Id, Record>)
    requires ShortChains(records) && forall id | id in fewer :: id in records && fewer[id] == records[id]
    ensures ShortChains(fewer)
  {}

  lemma TargetsAreNamed(cfg: Config, s: State)
    requires GoodConfig(cfg) && Inv(cfg, s)
    ensures forall id | id in s.records :: s.records[id].target != ""
  {
    forall id | id in s.records ensures s.records[id].target != "" {
      assert VolumeOk(cfg, s, id) && cfg.targetOf[id] in cfg.targetOf.Values;
    }
  }

  /** While there are no chains, a step makes one exactly if it saves a record that does. */
  lemma StepChainsIff(cfg: Config, s: State, e: Event)
    requires GoodConfig(cfg) && Inv(cfg, s) && Enabled(cfg, s, e) && ShortChains(s.records)
    ensures ShortChains(Apply(cfg, s, e).records) <==> !Chains(s, e)
  {
    if e.Saved? && e.ok {
      TargetsAreNamed(cfg, s);
      assert VolumeOk(cfg, s, e.id);
      SaveChainsIff(s.records, e.id, s.ops[e.id].st);
    } else {
      StepIsTame(cfg, s, e);
      FewerChains(s.records, Apply(cfg, s, e).records);
    }
  }

  /** No step of the run makes a chain. */
  ghost predicate NeverChains(cfg: Config, s: State, es: seq<Event>)
    requires Runs(cfg, s, es)
    decreases |es|
  {
    es == [] || (!Chains(s, es[0]) && NeverChains(cfg, Apply(cfg, s, es[0]), es[1..]))
  }

  /** There is no chain at any point of the run. */
  ghost predicate AlwaysShort(cfg: Config, s: State, es: seq<Event>)
    requires Runs(cfg, s, es)
    decreases |es|
  {
    ShortChains(s.records) && (es == [] || AlwaysShort(cfg, Apply(cfg, s, es[0]), es[1..]))
  }

  /** A run that begins without chains stays without them throughout exactly if no save in it
      makes one. */
  lemma {:induction false} RunChainsIff(cfg: Config, s: State, es: seq<Event>)
    requires GoodConfig(cfg) && Inv(cfg, s) && Runs(cfg, s, es) && ShortChains(s.records)
    ensures AlwaysShort(cfg, s, es) <==> NeverChains(cfg, s, es)
    decreases |es|
  {
    if es != [] {
      StepChainsIff(cfg, s, es[0]);
      StepKeepsInv(cfg, s, es[0]);
      if !Chains(s, es[0]) {
        RunChainsIff(cfg, Apply(cfg, s, es[0]), es[1..]);
      }
    }
  }

  // ---- what a view shows ----

  lemma SourceIsUnion(cfg: Config, s: State, id: Id)
    requires Inv(cfg, s) && ShortChains(s.records) && id in s.records && Serving(cfg, s, s.records[id].sharedFrom)
    ensures Shareable(cfg, s, s.records[id].sharedFrom)
  {
    var t := s.records[id].sharedFrom;
    var source := VolumeAt(cfg, t);
    assert VolumeOk(cfg, s, source);
    assert Holds(s, source, s.mounts[t].record);
  }

  /** In every run that makes no view of a view, whatever is decided and however often it
      changes, the source of a view, whenever it serves, is a union's own mount. */
  lemma SourcesAreUnions(cfg: Config, es: seq<Event>, s: State, id: Id)
    requires GoodConfig(cfg) && RunsTo(cfg, INITIAL, es, s) && NeverChains(cfg, INITIAL, es)
    requires id in s.records && Serving(cfg, s, s.records[id].sharedFrom)
    ensures Shareable(cfg, s, s.records[id].sharedFrom)
  {
    InitialInv(cfg);
    RunKeepsInv(cfg, INITIAL, es);
    RunChainsIff(cfg, INITIAL, es);
    EndsShort(cfg, INITIAL, es);
    SourceIsUnion(cfg, s, id);
  }

  lemma {:induction false} EndsShort(cfg: Config, s: State, es: seq<Event>)
    requires Runs(cfg, s, es) && AlwaysShort(cfg, s, es)
    ensures ShortChains(After(cfg, s, es).records)
    decreases |es|
  {
    if es != [] {
      EndsShort(cfg, Apply(cfg, s, es[0]), es[1..]);
    }
  }

  /** A view that answers shows the union it is recorded to be shared from. */
  ghost predicate ShowsSource(s: State, t: Target) {
    t in s.mounts && IsView(s.mounts[t].record) && Alive(s, s.mounts[t]) ==>
      s.daemons[s.mounts[t].owner].started.target == s.mounts[t].record.sharedFrom
  }

  ghost predicate AllShowSource(s: State) {
    forall t :: ShowsSource(s, t)
  }

  lemma FrameShowsSource(cfg: Config, s: State, s': State, mover: Id, t: Target)
    requires mover in cfg.targetOf && Confined(cfg, s, s', mover) && ShowsSource(s, t) && OnlySealed(s, s', t)
    requires s.mounts[t].pid < s.nextPid
    ensures ShowsSource(s', t)
  {
    var m := s.mounts[t];
    assert m.owner != mover ==> (m.owner in s.daemons <==> m.owner in s'.daemons);
  }

  lemma BoundShowsSource(cfg: Config, s: State, s': State, mover: Id)
    requires Inv(cfg, s) && mover in cfg.targetOf && StepsWell(cfg, s, mover, s') && ShortChains(s'.records)
    requires cfg.targetOf[mover] in s'.mounts
    requires var m := s'.mounts[cfg.targetOf[mover]];
             IsView(m.record) && Alive(s', m) && Views(cfg, s, m, m.record.sharedFrom)
    ensures ShowsSource(s', cfg.targetOf[mover])
  {
    var m := s'.mounts[cfg.targetOf[mover]];
    var x := m.record.sharedFrom;
    var source := VolumeAt(cfg, x);
    assert VolumeOk(cfg, s, source);
    assert Holds(s', mover, m.record) && Holds(s, source, s.mounts[x].record);
    if source != mover {
      assert source in s'.records && s'.records[source] == s.records[source];
      assert source in s'.daemons && s'.daemons[source] == s.daemons[source];
    }
  }

  lemma OwnTargetShowsSource(cfg: Config, s: State, s': State, mover: Id)
    requires Inv(cfg, s) && ShortChains(s'.records)
    requires mover in cfg.targetOf && cfg.targetOf[mover] in s'.mounts && ShowsSource(s, cfg.targetOf[mover])
    requires StepsWell(cfg, s, mover, s') && PutsOwn(cfg, s, s', mover)
    ensures ShowsSource(s', cfg.targetOf[mover])
  {
    var t := cfg.targetOf[mover];
    assert VolumeOk(cfg, s, mover);
    var m := s'.mounts[t];
    if OnlySealed(s, s', t) {
      FrameShowsSource(cfg, s, s', mover, t);
    } else if IsView(m.record) && Alive(s', m) {
      BoundShowsSource(cfg, s, s', mover);
    }
  }

  lemma OthersShowSource(cfg: Config, s: State, s': State, mover: Id, t: Target)
    requires mover in cfg.targetOf && Confined(cfg, s, s', mover) && ShowsSource(s, t) && t != cfg.targetOf[mover]
    requires t in s.mounts ==> s.mounts[t].pid < s.nextPid
    ensures ShowsSource(s', t)
  {
    assert t in s.mounts <==> t in s'.mounts;
    if t in s.mounts {
      FrameShowsSource(cfg, s, s', mover, t);
    }
  }

  lemma StepShowsSource(cfg: Config, s: State, e: Event)
    requires GoodConfig(cfg) && Inv(cfg, s) && AllShowSource(s) && Enabled(cfg, s, e)
    requires !Environment(e) && e.id in cfg.targetOf && ShortChains(Apply(cfg, s, e).records)
    ensures AllShowSource(Apply(cfg, s, e))
  {
    var s', t := Apply(cfg, s, e), cfg.targetOf[e.id];
    VolumeStepsWell(cfg, s, e);
    StepPutsOwn(cfg, s, e);
    OldMounts(cfg, s);
    forall x ensures ShowsSource(s', x) {
      assert ShowsSource(s, x);
      if x != t {
        OthersShowSource(cfg, s, s', e.id, x);
      } else if t in s'.mounts {
        OwnTargetShowsSource(cfg, s, s', e.id);
      }
    }
  }

  lemma EnvironmentShowsSource(cfg: Config, s: State, e: Event)
    requires Environment(e) && Enabled(cfg, s, e) && AllShowSource(s)
    ensures AllShowSource(Apply(cfg, s, e))
  {
    forall t ensures ShowsSource(Apply(cfg, s, e), t) {
      assert ShowsSource(s, t);
    }
  }

  lemma {:induction false} RunShowsSource(cfg: Config, s: State, es: seq<Event>)
    requires GoodConfig(cfg) && Inv(cfg, s) && AllShowSource(s) && Runs(cfg, s, es) && AlwaysShort(cfg, s, es)
    ensures AllShowSource(After(cfg, s, es))
    decreases |es|
  {
    if es != [] {
      var e, next := es[0], Apply(cfg, s, es[0]);
      assert ShortChains(next.records);
      if Environment(e) {
        EnvironmentShowsSource(cfg, s, e);
      } else if e.id in cfg.targetOf {
        StepShowsSource(cfg, s, e);
      } else {
        StrangerDoesNothing(cfg, s, e);
      }
      StepKeepsInv(cfg, s, e);
      RunShowsSource(cfg, next, es[1..]);
    }
  }

  /** In every such run a view that answers is served by the daemon of the union it is shared
      from, never by another one. */
  lemma ViewsShowTheirSource(cfg: Config, es: seq<Event>, s: State, t: Target)
    requires GoodConfig(cfg) && RunsTo(cfg, INITIAL, es, s) && NeverChains(cfg, INITIAL, es)
    requires t in s.mounts && IsView(s.mounts[t].record) && Alive(s, s.mounts[t])
    ensures s.daemons[s.mounts[t].owner].started.target == s.mounts[t].record.sharedFrom
  {
    InitialInv(cfg);
    RunChainsIff(cfg, INITIAL, es);
    RunShowsSource(cfg, INITIAL, es);
    assert ShowsSource(s, t);
  }

  // ---- a run that ends with a chain ----

  function MountSteps(cfg: Config, id: Id, st: Record): seq<Event> {
    [MountBegin(id, st)] + ([Saved(id, true)] + ([Started(id, true)] + SealSteps(cfg, id)))
  }

  function ShareSteps(id: Id, st: Record): seq<Event> {
    [ShareBegin(id, st)] + ([Saved(id, true)] + [ShareBound(id, true)])
  }

  /** A publish of st can begin. */
  ghost predicate MayPublish(cfg: Config, s: State, id: Id, st: Record) {
    s.ops == map[] && FitsConfig(cfg, id, st) && st.target in s.dirs && st.target !in s.mounts
  }

  /** The publish is done: st is stored and what it mounted serves; nothing else changed. */
  ghost predicate Published(cfg: Config, s: State, id: Id, st: Record, s': State) {
    && s'.ops == map[] && s'.dirs == s.dirs && s'.records == s.records[id := st]
    && Serving(cfg, s', st.target) && s'.mounts == s.mounts[st.target := s'.mounts[st.target]]
  }

  lemma SealRuns(cfg: Config, s: State, id: Id, st: Record)
    requires id in s.ops && s.ops[id].Start? && s.ops[id].st == st && st.target in s.dirs
    ensures Runs(cfg, s, [Started(id, true)] + SealSteps(cfg, id))
  {
    var s1 := Apply(cfg, s, Started(id, true));
    if cfg.seal {
      RunsOne(cfg, s1, Sealed(id, true));
    }
    RunsCons(cfg, s, Started(id, true), SealSteps(cfg, id));
  }

  lemma MountServes(cfg: Config, s: State, id: Id, st: Record) returns (s': State)
    requires MayPublish(cfg, s, id, st) && !IsView(st)
    ensures RunsTo(cfg, s, MountSteps(cfg, id, st), s') && Published(cfg, s, id, st, s')
    ensures s'.mounts[st.target] == Mount(st, id, s.nextPid, cfg.seal) && s'.nextPid == s.nextPid + 1
    ensures s'.daemons == s.daemons[id := Daemon(s.nextPid, st, Clones(st.branches), false, false)]
  {
    var s1 := Apply(cfg, s, MountBegin(id, st));
    var s2 := Apply(cfg, s1, Saved(id, true));
    SealRuns(cfg, s2, id, st);
    StartPlays(cfg, s2, id, st);
    var tail := [Started(id, true)] + SealSteps(cfg, id);
    s' := After(cfg, s2, tail);
    RunsCons(cfg, s1, Saved(id, true), tail);
    RunsCons(cfg, s, MountBegin(id, st), [Saved(id, true)] + tail);
    assert s'.ops == map[];
  }

  lemma ShareServes(cfg: Config, s: State, id: Id, st: Record) returns (s': State)
    requires MayPublish(cfg, s, id, st) && IsView(st) && Serving(cfg, s, st.sharedFrom)
    ensures RunsTo(cfg, s, ShareSteps(id, st), s') && Published(cfg, s, id, st, s')
    ensures s'.mounts[st.target] == s.mounts[st.sharedFrom].(record := st) && s'.daemons == s.daemons
    ensures s'.nextPid == s.nextPid
  {
    var s1 := Apply(cfg, s, ShareBegin(id, st));
    var s2 := Apply(cfg, s1, Saved(id, true));
    s' := Apply(cfg, s2, ShareBound(id, true));
    RunsOne(cfg, s2, ShareBound(id, true));
    RunsCons(cfg, s1, Saved(id, true), [ShareBound(id, true)]);
    RunsCons(cfg, s, ShareBegin(id, st), [Saved(id, true)] + [ShareBound(id, true)]);
    assert s'.ops == map[];
  }

  function Own(cfg: Config, id: Id): Record
    requires id in cfg.targetOf
  {
    Record(id, cfg.targetOf[id], [], [], "", false)
  }

  function ViewOf(cfg: Config, id: Id, source: Id): Record
    requires id in cfg.targetOf && source in cfg.targetOf
  {
    Record(id, cfg.targetOf[id], [], [], cfg.targetOf[source], false)
  }

  lemma TargetsMade(cfg: Config, a: Target, b: Target, c: Target)
    ensures RunsTo(cfg, INITIAL, [TargetMade(a)] + ([TargetMade(b)] + [TargetMade(c)]), INITIAL.(dirs := {a, b, c}))
  {
    var s1 := Apply(cfg, INITIAL, TargetMade(a));
    var s2 := Apply(cfg, s1, TargetMade(b));
    RunsOne(cfg, s2, TargetMade(c));
    RunsCons(cfg, s1, TargetMade(b), [TargetMade(c)]);
    RunsCons(cfg, INITIAL, TargetMade(a), [TargetMade(b)] + [TargetMade(c)]);
    assert Apply(cfg, s2, TargetMade(c)).dirs == {a, b, c};
  }

  /** Volume b mounts and c views it; the node reboots; by now a, which comes first in the
      pod, is in use, so it mounts and b becomes a view of it. The record of c still names b. */
  lemma ChainArises(cfg: Config, a: Id, b: Id, c: Id) returns (es: seq<Event>, s: State)
    requires GoodConfig(cfg) && {a, b, c} <= cfg.targetOf.Keys && a != b && b != c && a != c
    ensures RunsTo(cfg, INITIAL, es, s) && !ShortChains(s.records)
    ensures s.records == map[b := ViewOf(cfg, b, a), c := ViewOf(cfg, c, b), a := Own(cfg, a)]
  {
    var before, s3 := ViewThenReboot(cfg, a, b, c);
    var tail;
    tail, s := ViewOfMount(cfg, s3, a, b);
    RunsAppend(cfg, INITIAL, before, s3, tail, s);
    es := before + tail;
    EndsInChain(cfg, a, b, c);
  }

  lemma EndsInChain(cfg: Config, a: Id, b: Id, c: Id)
    requires GoodConfig(cfg) && {a, b, c} <= cfg.targetOf.Keys && a != b && b != c && a != c
    ensures var before := map[b := Own(cfg, b), c := ViewOf(cfg, c, b)];
            var after := before[a := Own(cfg, a)][b := ViewOf(cfg, b, a)];
            after == map[b := ViewOf(cfg, b, a), c := ViewOf(cfg, c, b), a := Own(cfg, a)] && !ShortChains(after)
  {
    var after := map[b := ViewOf(cfg, b, a), c := ViewOf(cfg, c, b), a := Own(cfg, a)];
    assert cfg.targetOf[a] in cfg.targetOf.Values;
    assert after[b].target == after[c].sharedFrom && IsView(after[b]);
  }

  lemma ViewThenReboot(cfg: Config, a: Id, b: Id, c: Id) returns (es: seq<Event>, s: State)
    requires GoodConfig(cfg) && {a, b, c} <= cfg.targetOf.Keys && a != b && b != c && a != c
    ensures RunsTo(cfg, INITIAL, es, s) && s.records == map[b := Own(cfg, b), c := ViewOf(cfg, c, b)]
    ensures s.ops == map[] && s.mounts == map[] && cfg.targetOf[a] in s.dirs && cfg.targetOf[b] in s.dirs
  {
    var ta, tb, tc := cfg.targetOf[a], cfg.targetOf[b], cfg.targetOf[c];
    TargetsMade(cfg, ta, tb, tc);
    var made := [TargetMade(ta)] + ([TargetMade(tb)] + [TargetMade(tc)]);
    var s0 := INITIAL.(dirs := {ta, tb, tc});
    var shared, s2 := ViewOfMount(cfg, s0, b, c);
    RunsAppend(cfg, INITIAL, made, s0, shared, s2);
    Extend(cfg, INITIAL, made + shared, s2, NodeReboot);
    es, s := made + shared + [NodeReboot], Apply(cfg, s2, NodeReboot);
  }

  /** Volume a mounts, and b is published as a view of it. */
  lemma ViewOfMount(cfg: Config, s: State, a: Id, b: Id) returns (es: seq<Event>, s': State)
    requires {a, b} <= cfg.targetOf.Keys && GoodConfig(cfg) && a != b
    requires s.ops == map[] && s.mounts == map[] && cfg.targetOf[a] in s.dirs && cfg.targetOf[b] in s.dirs
    ensures RunsTo(cfg, s, es, s') && s'.records == s.records[a := Own(cfg, a)][b := ViewOf(cfg, b, a)]
    ensures s'.ops == map[] && s'.dirs == s.dirs
  {
    var s1 := MountServes(cfg, s, a, Own(cfg, a));
    s' := ShareServes(cfg, s1, b, ViewOf(cfg, b, a));
    RunsAppend(cfg, s, MountSteps(cfg, a, Own(cfg, a)), s1, ShareSteps(b, ViewOf(cfg, b, a)), s');
    es := MountSteps(cfg, a, Own(cfg, a)) + ShareSteps(b, ViewOf(cfg, b, a));
  }
}
