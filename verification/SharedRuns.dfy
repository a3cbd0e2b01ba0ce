/** The supervision protocol when the driver decides who shares what. The decisions are taken
    as fixed: each volume either always mounts for itself or is always a view of the same
    target (pkg/driver/node.go, pkg/backend/mergerfs/mount_linux.go). */
module SharedRuns {
  import opened Optional
  import opened Paths
  import opened Pods
  import opened Argv
  import opened Supervision
  import opened SupervisionSafety
  import opened SupervisionRuns
  import SupervisionConvergence
  import opened SharedChains
  import Sharing

  /** The target each volume is a view of, or "" if it mounts for itself. */
  type Decisions = map<Id, Target>

  /** What is a view is not viewed. */
  ghost predicate OneHop(cfg: Config, from: Decisions) {
    forall view, source | view in from && source in from && source in cfg.targetOf
        && from[view] == cfg.targetOf[source] ::
      from[source] == ""
  }

  predicate Decided(from: Decisions, id: Id, st: Record) {
    id in from && st.sharedFrom == from[id]
  }

  /** The publish does what was decided. */
  predicate Obeys(from: Decisions, e: Event) {
    e.MountBegin? || e.ShareBegin? ==> Decided(from, e.id, e.st)
  }

  predicate Saving(op: Op) {
    op.MountSave? || op.ShareSave?
  }

  ghost predicate Follows(from: Decisions, s: State) {
    && (forall id | id in s.records :: Decided(from, id, s.records[id]))
    && (forall id | id in s.ops && Saving(s.ops[id]) :: Decided(from, id, s.ops[id].st))
  }

  /** Only a publish begins to save. */
  ghost predicate SavesBegun(s: State, e: Event, s': State) {
    forall id | id in s'.ops && Saving(s'.ops[id]) ::
      || (id in s.ops && s'.ops[id] == s.ops[id])
      || ((e.MountBegin? || e.ShareBegin?) && e.id == id && s'.ops[id].st == e.st)
  }

  lemma PublishBegins(cfg: Config, s: State, e: Event)
    requires Enabled(cfg, s, e) && IsPublish(e)
    ensures SavesBegun(s, e, Apply(cfg, s, e))
  {}

  lemma StartBegins(cfg: Config, s: State, e: Event)
    requires Enabled(cfg, s, e) && IsStart(e)
    ensures SavesBegun(s, e, Apply(cfg, s, e))
  {}

  lemma UnpublishBegins(cfg: Config, s: State, e: Event)
    requires Enabled(cfg, s, e) && IsUnpublish(e)
    ensures SavesBegun(s, e, Apply(cfg, s, e))
  {}

  lemma RemountBegins(cfg: Config, s: State, e: Event)
    requires Enabled(cfg, s, e) && IsRemount(e)
    ensures SavesBegun(s, e, Apply(cfg, s, e))
  {}

  lemma ReconcileBegins(cfg: Config, s: State, id: Id, seen: Probed)
    requires Enabled(cfg, s, ReconcileBegin(id, seen))
    ensures SavesBegun(s, ReconcileBegin(id, seen), BeginReconcile(cfg, s, id, seen))
  {}

  lemma TurnBegins(s: State, id: Id, sight: Sight)
    requires id in s.ops && s.ops[id].Repair? && s.ops[id].next < |s.ops[id].st.branches|
    ensures SavesBegun(s, BranchSeen(id, sight), SeeBranch(s, id, sight))
  {}

  lemma OtherBegins(cfg: Config, s: State, e: Event)
    requires Enabled(cfg, s, e) && !IsPublish(e) && !IsStart(e) && !IsUnpublish(e) && !IsRemount(e)
    requires !e.ReconcileBegin? && !e.BranchSeen?
    ensures SavesBegun(s, e, Apply(cfg, s, e))
  {
    var s' := Apply(cfg, s, e);
    assert s'.ops == s.ops || s'.ops == map[] || (e.RepairEnd? && s'.ops == s.ops - {e.id});
  }

  lemma StepFollows(cfg: Config, from: Decisions, s: State, e: Event)
    requires Follows(from, s) && Enabled(cfg, s, e) && Obeys(from, e)
    ensures Follows(from, Apply(cfg, s, e))
  {
    if IsPublish(e) {
      PublishBegins(cfg, s, e);
    } else if IsStart(e) {
      StartBegins(cfg, s, e);
    } else if IsUnpublish(e) {
      UnpublishBegins(cfg, s, e);
    } else if IsRemount(e) {
      RemountBegins(cfg, s, e);
    } else if e.ReconcileBegin? {
      ReconcileBegins(cfg, s, e.id, e.seen);
    } else if e.BranchSeen? {
      TurnBegins(s, e.id, e.sight);
    } else {
      OtherBegins(cfg, s, e);
    }
    StepIsTame(cfg, s, e);
    RecordsFollow(cfg, from, s, e, Apply(cfg, s, e));
  }

  lemma RecordsFollow(cfg: Config, from: Decisions, s: State, e: Event, s': State)
    requires Follows(from, s) && Enabled(cfg, s, e) && s' == Apply(cfg, s, e) && Tame(s, e, s')
    ensures forall id | id in s'.records :: Decided(from, id, s'.records[id])
  {
    forall id | id in s'.records ensures Decided(from, id, s'.records[id]) {
      if e != Saved(id, true) {
        assert id in s.records && s'.records[id] == s.records[id];
      }
    }
  }

  lemma {:induction false} RunFollows(cfg: Config, from: Decisions, s: State, es: seq<Event>)
    requires Follows(from, s) && Runs(cfg, s, es) && forall e | e in es :: Obeys(from, e)
    ensures Follows(from, After(cfg, s, es))
    decreases |es|
  {
    if es != [] {
      assert es[0] in es;
      StepFollows(cfg, from, s, es[0]);
      RunFollows(cfg, from, Apply(cfg, s, es[0]), es[1..]);
    }
  }

  lemma FollowersHaveShortChains(cfg: Config, from: Decisions, s: State)
    requires Inv(cfg, s) && OneHop(cfg, from) && Follows(from, s)
    ensures SupervisionConvergence.ShortChains(s.records)
  {
    forall view, source | view in s.records && source in s.records
        && s.records[source].target == s.records[view].sharedFrom
      ensures !IsView(s.records[source])
    {
      assert VolumeOk(cfg, s, source);
      assert Decided(from, view, s.records[view]) && Decided(from, source, s.records[source]);
    }
  }

  /** A run that does what was decided, once and for all, never makes a view of a view. */
  lemma {:induction false} FixedDecisionsNeverChain(cfg: Config, from: Decisions, s: State, es: seq<Event>)
    requires GoodConfig(cfg) && OneHop(cfg, from) && Inv(cfg, s) && Follows(from, s)
    requires Runs(cfg, s, es) && forall e | e in es :: Obeys(from, e)
    ensures NeverChains(cfg, s, es)
    decreases |es|
  {
    if es != [] {
      assert es[0] in es;
      StepFollows(cfg, from, s, es[0]);
      StepKeepsInv(cfg, s, es[0]);
      FollowersHaveShortChains(cfg, from, s);
      FollowersHaveShortChains(cfg, from, Apply(cfg, s, es[0]));
      StepChainsIff(cfg, s, es[0]);
      FixedDecisionsNeverChain(cfg, from, Apply(cfg, s, es[0]), es[1..]);
    }
  }

  // ---- the decisions of the driver ----

  /** Volume number i of a pod. */
  datatype Place = Place(pod: Pod, i: nat)

  ghost predicate GoodPlaces(d: Sharing.Driver, cfg: Config, places: map<Id, Place>) {
    && IsAbs(d.kubeletRoot) && cfg.targetOf.Keys <= places.Keys
    && (forall id | id in places :: Sharing.GoodPod(places[id].pod) && places[id].i < |places[id].pod.volumes|)
    && (forall id | id in cfg.targetOf :: cfg.targetOf[id] == Sharing.TargetAt(d, places[id].pod, places[id].i))
    && (forall a, b | a in places && b in places && places[a].pod.uid == places[b].pod.uid ::
        places[a].pod == places[b].pod)
  }

  function SourceOf(view: Option<Sharing.View>): Target {
    if view.Some? then view.value.source else ""
  }

  ghost function DriverDecides(d: Sharing.Driver, places: map<Id, Place>): Decisions
    requires IsAbs(d.kubeletRoot) && forall id | id in places :: places[id].i < |places[id].pod.volumes|
  {
    map id | id in places :: SourceAt(d, places[id])
  }

  /** What sharedSource decides for the volumes of any pods is never a chain of views. */
  lemma DriverDecidesOneHop(d: Sharing.Driver, cfg: Config, places: map<Id, Place>)
    requires GoodPlaces(d, cfg, places)
    ensures OneHop(cfg, DriverDecides(d, places))
  {
    var from := DriverDecides(d, places);
    forall view, source | view in from && source in from && source in cfg.targetOf && from[view] == cfg.targetOf[source]
      ensures from[source] == ""
    {
      ViewedMountsForItself(d, places[view], places[source]);
    }
  }

  ghost function SourceAt(d: Sharing.Driver, p: Place): Target
    requires IsAbs(d.kubeletRoot) && p.i < |p.pod.volumes|
  {
    SourceOf(Sharing.Shared(d, p.pod, Sharing.TargetAt(d, p.pod, p.i)))
  }

  lemma ViewedMountsForItself(d: Sharing.Driver, viewing: Place, viewed: Place)
    requires IsAbs(d.kubeletRoot) && Sharing.GoodPod(viewing.pod) && Sharing.GoodPod(viewed.pod)
    requires viewing.i < |viewing.pod.volumes| && viewed.i < |viewed.pod.volumes|
    requires viewing.pod.uid == viewed.pod.uid ==> viewing.pod == viewed.pod
    requires SourceAt(d, viewing) == Sharing.TargetAt(d, viewed.pod, viewed.i)
    ensures SourceAt(d, viewed) == ""
  {
    var k := Sharing.ViewsAreOfMounts(d, viewing.pod, Sharing.TargetAt(d, viewing.pod, viewing.i));
    SameTargetSamePlace(d, viewing.pod, k, viewed.pod, viewed.i);
  }

  lemma SameTargetSamePlace(d: Sharing.Driver, p: Pod, i: nat, q: Pod, j: nat)
    requires IsAbs(d.kubeletRoot) && Sharing.GoodPod(p) && Sharing.GoodPod(q) && i < |p.volumes| && j < |q.volumes|
    requires Sharing.TargetAt(d, p, i) == Sharing.TargetAt(d, q, j)
    ensures p.uid == q.uid && (p == q ==> i == j)
  {
    assert p.volumes[i] in p.volumes && q.volumes[j] in q.volumes;
    Sharing.TargetNames(d.kubeletRoot, p.uid, p.volumes[i].name);
    Sharing.TargetNames(d.kubeletRoot, q.uid, q.volumes[j].name);
    var cs := Comps(d.kubeletRoot);
    var a := cs + ["pods", p.uid, "volumes", "kubernetes.io~csi", p.volumes[i].name, "mount"];
    var b := cs + ["pods", q.uid, "volumes", "kubernetes.io~csi", q.volumes[j].name, "mount"];
    assert a[|cs| + 1] == p.uid && b[|cs| + 1] == q.uid;
    assert a[|cs| + 4] == p.volumes[i].name && b[|cs| + 4] == q.volumes[j].name;
  }
}
