/** The admission policy that mounts the sources of unions
    (charts/union-csi-driver/templates/mutatingadmissionpolicy.yaml): kubelet sets up only
    volumes that some container mounts, so each source that none mounts is mounted into a
    container that mounts a union built from it. */
module Admission {
  import opened Optional
  import opened Text
  import opened Pods

  // ---- the expressions of the policy ----

  function Trim(s: string): string {
    if s == "" then ""
    else if IsSpace(s[0]) then Trim(s[1..])
    else if IsSpace(s[|s| - 1]) then Trim(s[..|s| - 1])
    else s
  }

  /** The names a sourceVolumes attribute lists, as the policy reads it. */
  function SourceNames(raw: string): (names: seq<string>)
    ensures |names| == |Split(raw, ',')|
    ensures forall i | 0 <= i < |names| :: names[i] == Trim(Split(Split(raw, ',')[i], '=')[0])
  {
    var entries := Split(raw, ',');
    seq(|entries|, i requires 0 <= i < |entries| => Trim(Split(entries[i], '=')[0]))
  }

  predicate IsUnion(driver: string, v: Volume) {
    v.source.CSI? && v.source.driver == driver && "sourceVolumes" in v.source.attributes
  }

  function UnionSources(driver: string, v: Volume): seq<string>
    requires IsUnion(driver, v)
  {
    SourceNames(v.source.attributes["sourceVolumes"])
  }

  /** The sources of the unions among volumes that container c mounts. */
  function SourcesIn(driver: string, volumes: seq<Volume>, c: Container): (names: seq<string>)
    ensures forall n :: n in names <==>
            exists v :: v in volumes && IsUnion(driver, v) && Mounting(c, v.name)
              && n in UnionSources(driver, v)
  {
    if volumes == [] then []
    else
      var v := volumes[0];
      var own := if IsUnion(driver, v) && Mounting(c, v.name) then UnionSources(driver, v) else [];
      own + SourcesIn(driver, volumes[1..], c)
  }

  function PerContainer(driver: string, volumes: seq<Volume>, cs: seq<Container>): (lists: seq<seq<string>>)
    ensures |lists| == |cs| && forall i | 0 <= i < |cs| :: lists[i] == SourcesIn(driver, volumes, cs[i])
  {
    seq(|cs|, i requires 0 <= i < |cs| => SourcesIn(driver, volumes, cs[i]))
  }

  function Flatten(lists: seq<seq<string>>): (names: seq<string>)
    ensures forall n :: n in names <==> exists l :: l in lists && n in l
  {
    if lists == [] then [] else lists[0] + Flatten(lists[1..])
  }

  function Distinct(names: seq<string>): (r: seq<string>)
    ensures forall n :: n in r <==> n in names
    ensures forall i, j | 0 <= i < j < |r| :: r[i] != r[j]
  {
    if names == [] then []
    else
      var front, last := Distinct(names[..|names| - 1]), names[|names| - 1];
      if last in front then front else front + [last]
  }

  predicate MountedIn(cs: seq<Container>, n: string) {
    exists c | c in cs :: Mounting(c, n)
  }

  /** Some container or init container mounts the volume. */
  predicate Mounted(pod: Pod, n: string) {
    MountedIn(pod.containers, n) || MountedIn(pod.initContainers, n)
  }

  function ContainerSources(driver: string, pod: Pod): seq<seq<string>> {
    PerContainer(driver, pod.volumes, pod.containers)
  }

  function InitContainerSources(driver: string, pod: Pod): seq<seq<string>> {
    PerContainer(driver, pod.volumes, pod.initContainers)
  }

  function Unmounted(pod: Pod, names: seq<string>): (r: seq<string>)
    ensures forall n :: n in r <==> n in names && !Mounted(pod, n) && HasVolume(pod, n)
    ensures (forall i, j | 0 <= i < j < |names| :: names[i] != names[j]) ==>
            forall i, j | 0 <= i < j < |r| :: r[i] != r[j]
  {
    if names == [] then []
    else
      var front, last := Unmounted(pod, names[..|names| - 1]), names[|names| - 1];
      if !Mounted(pod, last) && HasVolume(pod, last) then front + [last] else front
  }

  function Missing(driver: string, pod: Pod): seq<string> {
    Unmounted(pod, Distinct(Flatten(ContainerSources(driver, pod) + InitContainerSources(driver, pod))))
  }

  /** The first list that holds n, and then the first place of an equal list. */
  function FirstWith(lists: seq<seq<string>>, n: string): (l: seq<string>)
    requires exists l :: l in lists && n in l
    ensures n in l && l in lists
  {
    if n in lists[0] then lists[0] else FirstWith(lists[1..], n)
  }

  function IndexOf(lists: seq<seq<string>>, l: seq<string>): (i: nat)
    requires l in lists
    ensures i < |lists| && lists[i] == l
  {
    if lists[0] == l then 0 else 1 + IndexOf(lists[1..], l)
  }

  datatype Where = Main(i: nat) | Init(i: nat)

  datatype Patch = Patch(where: Where, mount: VolumeMount)

  predicate Lists(lists: seq<seq<string>>, n: string) {
    exists l :: l in lists && n in l
  }

  function PlaceOf(driver: string, pod: Pod, n: string): Where
    requires Lists(ContainerSources(driver, pod), n) || Lists(InitContainerSources(driver, pod), n)
  {
    var main, init := ContainerSources(driver, pod), InitContainerSources(driver, pod);
    if Lists(main, n) then Main(IndexOf(main, FirstWith(main, n))) else Init(IndexOf(init, FirstWith(init, n)))
  }

  function SourceMount(n: string): VolumeMount {
    VolumeMount(n, "/.union-csi/sources/" + n, true)
  }

  lemma MissingIsListed(driver: string, pod: Pod, n: string)
    requires n in Missing(driver, pod)
    ensures Lists(ContainerSources(driver, pod), n) || Lists(InitContainerSources(driver, pod), n)
  {
    var main, init := ContainerSources(driver, pod), InitContainerSources(driver, pod);
    var l :| l in main + init && n in l;
    assert l in main || l in init;
  }

  function Patches(driver: string, pod: Pod): (ps: seq<Patch>)
    ensures |ps| == |Missing(driver, pod)|
  {
    var missing := Missing(driver, pod);
    seq(|missing|, i requires 0 <= i < |missing| => PatchFor(driver, pod, missing[i]))
  }

  function PatchFor(driver: string, pod: Pod, n: string): Patch
    requires n in Missing(driver, pod)
  {
    MissingIsListed(driver, pod, n);
    Patch(PlaceOf(driver, pod, n), SourceMount(n))
  }

  // ---- JSON Patch ----

  function AddMount(cs: seq<Container>, i: nat, m: VolumeMount): Option<seq<Container>> {
    if i >= |cs| || cs[i].mounts.None? then None
    else Some(cs[i := cs[i].(mounts := Some(cs[i].mounts.value + [m]))])
  }

  /** "add" at ".../volumeMounts/-" (section 4.1 of RFC 6902): the array must exist. */
  function ApplyPatch(pod: Pod, p: Patch): Option<Pod> {
    match p.where
    case Main(i) =>
      var cs := AddMount(pod.containers, i, p.mount);
      if cs.None? then None else Some(pod.(containers := cs.value))
    case Init(i) =>
      var cs := AddMount(pod.initContainers, i, p.mount);
      if cs.None? then None else Some(pod.(initContainers := cs.value))
  }

  function ApplyAll(pod: Pod, ps: seq<Patch>): Option<Pod>
    decreases |ps|
  {
    if ps == [] then Some(pod)
    else
      match ApplyPatch(pod, ps[0])
      case None => None
      case Some(next) => ApplyAll(next, ps[1..])
  }

  predicate Matches(driver: string, pod: Pod) {
    exists v | v in pod.volumes :: v.source.CSI? && v.source.driver == driver
  }

  /** The pod that is created. */
  function Admit(driver: string, pod: Pod): Option<Pod> {
    if Matches(driver, pod) then ApplyAll(pod, Patches(driver, pod)) else Some(pod)
  }

  // ---- what the policy adds ----

  /** Some container mounts a union built from n. */
  ghost predicate Wanted(driver: string, pod: Pod, n: string) {
    exists v :: v in pod.volumes && IsUnion(driver, v) && Mounted(pod, v.name) && n in UnionSources(driver, v)
  }

  lemma ListsIff(driver: string, volumes: seq<Volume>, cs: seq<Container>, n: string)
    ensures Lists(PerContainer(driver, volumes, cs), n) <==>
            exists v :: v in volumes && IsUnion(driver, v) && MountedIn(cs, v.name) && n in UnionSources(driver, v)
  {
    var lists := PerContainer(driver, volumes, cs);
    if Lists(lists, n) {
      var l :| l in lists && n in l;
      var i :| 0 <= i < |lists| && lists[i] == l;
      var v :| v in volumes && IsUnion(driver, v) && Mounting(cs[i], v.name) && n in UnionSources(driver, v);
      assert cs[i] in cs && MountedIn(cs, v.name);
    }
    if v :| v in volumes && IsUnion(driver, v) && MountedIn(cs, v.name) && n in UnionSources(driver, v) {
      var c :| c in cs && Mounting(c, v.name);
      var i :| 0 <= i < |cs| && cs[i] == c;
      assert lists[i] in lists && n in lists[i];
    }
  }

  /** The policy adds exactly the pod volumes that a mounted union is built from and that
      nothing mounts yet, each once. */
  lemma MissingIff(driver: string, pod: Pod, n: string)
    ensures n in Missing(driver, pod) <==> HasVolume(pod, n) && !Mounted(pod, n) && Wanted(driver, pod, n)
    ensures forall i, j | 0 <= i < j < |Missing(driver, pod)| :: Missing(driver, pod)[i] != Missing(driver, pod)[j]
  {
    var main, init := ContainerSources(driver, pod), InitContainerSources(driver, pod);
    ListsIff(driver, pod.volumes, pod.containers, n);
    ListsIff(driver, pod.volumes, pod.initContainers, n);
    assert n in Flatten(main + init) <==> Lists(main, n) || Lists(init, n);
    if Wanted(driver, pod, n) {
      var v :| v in pod.volumes && IsUnion(driver, v) && Mounted(pod, v.name) && n in UnionSources(driver, v);
      assert MountedIn(pod.containers, v.name) || MountedIn(pod.initContainers, v.name);
    }
  }

  // ---- where it adds them ----

  lemma {:induction false} FirstWithIsFirst(lists: seq<seq<string>>, n: string)
    requires Lists(lists, n)
    ensures var i := IndexOf(lists, FirstWith(lists, n)); n in lists[i] && forall j | 0 <= j < i :: n !in lists[j]
  {
    var l := FirstWith(lists, n);
    if n !in lists[0] {
      assert Lists(lists[1..], n);
      FirstWithIsFirst(lists[1..], n);
      assert IndexOf(lists, l) == 1 + IndexOf(lists[1..], l);
    }
  }

  ghost predicate FirstToWant(driver: string, volumes: seq<Volume>, cs: seq<Container>, i: nat, n: string) {
    && i < |cs| && n in SourcesIn(driver, volumes, cs[i])
    && forall j | 0 <= j < i :: n !in SourcesIn(driver, volumes, cs[j])
  }

  ghost predicate PlacedFirst(driver: string, pod: Pod, n: string, where: Where) {
    match where
    case Main(i) => FirstToWant(driver, pod.volumes, pod.containers, i, n) && pod.containers[i].mounts.Some?
    case Init(i) =>
      && FirstToWant(driver, pod.volumes, pod.initContainers, i, n) && pod.initContainers[i].mounts.Some?
      && forall c | c in pod.containers :: n !in SourcesIn(driver, pod.volumes, c)
  }

  /** Each source is mounted into the first container that mounts a union built from it, an
      init container only if no other does; that container has mounts to append to. */
  lemma PlaceIsFirst(driver: string, pod: Pod, n: string)
    requires n in Missing(driver, pod)
    ensures Lists(ContainerSources(driver, pod), n) || Lists(InitContainerSources(driver, pod), n)
    ensures PlacedFirst(driver, pod, n, PlaceOf(driver, pod, n))
  {
    MissingIsListed(driver, pod, n);
    if Lists(ContainerSources(driver, pod), n) {
      FirstPlace(driver, pod.volumes, pod.containers, n);
    } else {
      FirstPlace(driver, pod.volumes, pod.initContainers, n);
      NoPlace(driver, pod.volumes, pod.containers, n);
    }
  }

  lemma FirstPlace(driver: string, volumes: seq<Volume>, cs: seq<Container>, n: string)
    requires Lists(PerContainer(driver, volumes, cs), n)
    ensures var lists := PerContainer(driver, volumes, cs);
            var i := IndexOf(lists, FirstWith(lists, n));
            FirstToWant(driver, volumes, cs, i, n) && cs[i].mounts.Some?
  {
    FirstWithIsFirst(PerContainer(driver, volumes, cs), n);
  }

  lemma NoPlace(driver: string, volumes: seq<Volume>, cs: seq<Container>, n: string)
    requires !Lists(PerContainer(driver, volumes, cs), n)
    ensures forall c | c in cs :: n !in SourcesIn(driver, volumes, c)
  {
    var lists := PerContainer(driver, volumes, cs);
    forall i | 0 <= i < |cs| ensures n !in SourcesIn(driver, volumes, cs[i]) {
      assert lists[i] in lists;
    }
  }

  // ---- the patched pod ----

  /** The mounts that patches add at one place, in order. */
  function Added(ps: seq<Patch>, where: Where): seq<VolumeMount>
    decreases |ps|
  {
    if ps == [] then [] else Own(ps[0], where) + Added(ps[1..], where)
  }

  function Grown(c: Container, ms: seq<VolumeMount>): Container {
    if c.mounts.None? then c else c.(mounts := Some(c.mounts.value + ms))
  }

  function GrownAll(pod: Pod, ps: seq<Patch>): (q: Pod)
    ensures |q.containers| == |pod.containers| && |q.initContainers| == |pod.initContainers|
    ensures forall i | 0 <= i < |pod.containers| :: q.containers[i] == Grown(pod.containers[i], Added(ps, Main(i)))
    ensures forall i | 0 <= i < |pod.initContainers| ::
              q.initContainers[i] == Grown(pod.initContainers[i], Added(ps, Init(i)))
    ensures q == pod.(containers := q.containers, initContainers := q.initContainers)
  {
    pod.(containers := GrownContainers(pod.containers, ps, true),
        initContainers := GrownContainers(pod.initContainers, ps, false))
  }

  function GrownContainers(cs: seq<Container>, ps: seq<Patch>, main: bool): (r: seq<Container>)
    ensures |r| == |cs|
    ensures forall i | 0 <= i < |cs| :: r[i] == Grown(cs[i], Added(ps, if main then Main(i) else Init(i)))
  {
    seq(|cs|, i requires 0 <= i < |cs| => Grown(cs[i], Added(ps, if main then Main(i) else Init(i))))
  }

  predicate Fits(pod: Pod, where: Where) {
    match where
    case Main(i) => i < |pod.containers| && pod.containers[i].mounts.Some?
    case Init(i) => i < |pod.initContainers| && pod.initContainers[i].mounts.Some?
  }

  lemma {:induction false} ApplyGrows(pod: Pod, ps: seq<Patch>)
    requires forall p | p in ps :: Fits(pod, p.where)
    ensures ApplyAll(pod, ps) == Some(GrownAll(pod, ps))
    decreases |ps|
  {
    if ps == [] {
      var q := GrownAll(pod, ps);
      forall c ensures Grown(c, []) == c {
        GrownByNothing(c);
      }
      assert q.containers == pod.containers && q.initContainers == pod.initContainers;
    } else {
      var p := ps[0];
      assert p in ps && ApplyPatch(pod, p).Some?;
      var next := ApplyPatch(pod, p).value;
      forall x | x in ps[1..] ensures Fits(next, x.where) {
        assert x in ps;
      }
      ApplyGrows(next, ps[1..]);
      OneMore(pod, ps, next);
    }
  }

  function Own(p: Patch, where: Where): seq<VolumeMount> {
    if p.where == where then [p.mount] else []
  }

  lemma OneMore(pod: Pod, ps: seq<Patch>, next: Pod)
    requires ps != [] && ApplyPatch(pod, ps[0]) == Some(next)
    ensures GrownAll(next, ps[1..]) == GrownAll(pod, ps)
  {
    var a, b := GrownAll(next, ps[1..]), GrownAll(pod, ps);
    StepGrows(pod, ps[0], next);
    forall i | 0 <= i < |pod.containers| ensures a.containers[i] == b.containers[i] {
      GrownTwice(pod.containers[i], ps, Main(i));
    }
    forall i | 0 <= i < |pod.initContainers| ensures a.initContainers[i] == b.initContainers[i] {
      GrownTwice(pod.initContainers[i], ps, Init(i));
    }
    assert a.containers == b.containers && a.initContainers == b.initContainers;
  }

  lemma StepGrows(pod: Pod, p: Patch, next: Pod)
    requires ApplyPatch(pod, p) == Some(next)
    ensures next == pod.(containers := next.containers, initContainers := next.initContainers)
    ensures |next.containers| == |pod.containers| && |next.initContainers| == |pod.initContainers|
    ensures forall i | 0 <= i < |pod.containers| :: next.containers[i] == Grown(pod.containers[i], Own(p, Main(i)))
    ensures forall i | 0 <= i < |pod.initContainers| ::
              next.initContainers[i] == Grown(pod.initContainers[i], Own(p, Init(i)))
  {
    forall c ensures Grown(c, []) == c {
      GrownByNothing(c);
    }
  }

  lemma GrownByNothing(c: Container)
    ensures Grown(c, []) == c
  {
    assert c.mounts.Some? ==> c.mounts.value + [] == c.mounts.value;
  }

  lemma GrownTwice(c: Container, ps: seq<Patch>, where: Where)
    requires ps != []
    ensures Grown(Grown(c, Own(ps[0], where)), Added(ps[1..], where)) == Grown(c, Added(ps, where))
  {
    var x, y := Own(ps[0], where), Added(ps[1..], where);
    assert c.mounts.Some? ==> c.mounts.value + x + y == c.mounts.value + (x + y);
  }

  lemma PatchesFit(driver: string, pod: Pod)
    ensures forall p | p in Patches(driver, pod) :: Fits(pod, p.where)
  {
    var missing, ps := Missing(driver, pod), Patches(driver, pod);
    forall i | 0 <= i < |ps| ensures Fits(pod, ps[i].where) {
      PlaceIsFirst(driver, pod, missing[i]);
    }
  }

  /** The patch never fails to apply. Every container keeps its mounts, in order, and gets
      exactly the ones placed in it behind them; nothing else changes. */
  lemma AdmitGrows(driver: string, pod: Pod)
    ensures Admit(driver, pod) == Some(GrownAll(pod, Patches(driver, pod)))
  {
    PatchesFit(driver, pod);
    ApplyGrows(pod, Patches(driver, pod));
    var missing := Missing(driver, pod);
    assert missing == [] || missing[0] in missing;
    if !Matches(driver, pod) && missing != [] {
      MissingIff(driver, pod, missing[0]);
    }
  }

  ghost predicate Patched(ps: seq<Patch>, where: Where, n: string) {
    exists p :: p in ps && p.where == where && p.mount.name == n
  }

  lemma {:induction false} AddedIff(ps: seq<Patch>, where: Where, n: string)
    ensures (exists m :: m in Added(ps, where) && m.name == n) <==> Patched(ps, where, n)
    decreases |ps|
  {
    if ps != [] {
      AddedIff(ps[1..], where, n);
      assert ps == [ps[0]] + ps[1..];
      assert Patched(ps, where, n) <==> Patched([ps[0]], where, n) || Patched(ps[1..], where, n);
      if ps[0].where == where && ps[0].mount.name == n {
        assert ps[0] in [ps[0]] && ps[0].mount in Added(ps, where);
      }
    }
  }

  lemma GrownMounts(c: Container, ps: seq<Patch>, where: Where, n: string)
    requires c.mounts.Some?
    ensures Mounting(Grown(c, Added(ps, where)), n) <==> Mounting(c, n) || Patched(ps, where, n)
  {
    AddedIff(ps, where, n);
    var d := Grown(c, Added(ps, where));
    assert Mounts(d) == Mounts(c) + Added(ps, where);
  }

  lemma MainMountedAfter(pod: Pod, ps: seq<Patch>, n: string)
    ensures MountedIn(GrownAll(pod, ps).containers, n) <==>
            MountedIn(pod.containers, n) || exists i :: Fits(pod, Main(i)) && Patched(ps, Main(i), n)
  {
    var q := GrownAll(pod, ps);
    forall i | 0 <= i < |pod.containers|
      ensures Mounting(q.containers[i], n) <==>
              Mounting(pod.containers[i], n) || (Fits(pod, Main(i)) && Patched(ps, Main(i), n))
    {
      if pod.containers[i].mounts.Some? {
        GrownMounts(pod.containers[i], ps, Main(i), n);
      }
    }
    MountedAt(pod.containers, n);
    MountedAt(q.containers, n);
  }

  lemma InitMountedAfter(pod: Pod, ps: seq<Patch>, n: string)
    ensures MountedIn(GrownAll(pod, ps).initContainers, n) <==>
            MountedIn(pod.initContainers, n) || exists i :: Fits(pod, Init(i)) && Patched(ps, Init(i), n)
  {
    var q := GrownAll(pod, ps);
    forall i | 0 <= i < |pod.initContainers|
      ensures Mounting(q.initContainers[i], n) <==>
              Mounting(pod.initContainers[i], n) || (Fits(pod, Init(i)) && Patched(ps, Init(i), n))
    {
      if pod.initContainers[i].mounts.Some? {
        GrownMounts(pod.initContainers[i], ps, Init(i), n);
      }
    }
    MountedAt(pod.initContainers, n);
    MountedAt(q.initContainers, n);
  }

  lemma MountedAt(cs: seq<Container>, n: string)
    ensures MountedIn(cs, n) <==> exists i :: 0 <= i < |cs| && Mounting(cs[i], n)
  {
    if MountedIn(cs, n) {
      var c :| c in cs && Mounting(c, n);
      var i :| 0 <= i < |cs| && cs[i] == c;
    }
  }

  lemma PatchedIff(driver: string, pod: Pod, n: string)
    ensures (exists where :: Patched(Patches(driver, pod), where, n)) <==> n in Missing(driver, pod)
  {
    var missing, ps := Missing(driver, pod), Patches(driver, pod);
    if n in missing {
      var k :| 0 <= k < |missing| && missing[k] == n;
      assert ps[k] in ps && ps[k].mount.name == n;
      assert Patched(ps, ps[k].where, n);
    }
    if where :| Patched(ps, where, n) {
      var p :| p in ps && p.where == where && p.mount.name == n;
      var k :| 0 <= k < |ps| && ps[k] == p;
      assert missing[k] == n;
    }
  }

  /** After the patch a volume is mounted exactly if it was before or is one of the missing. */
  lemma MountedAfter(driver: string, pod: Pod, n: string)
    ensures var q := GrownAll(pod, Patches(driver, pod));
            Mounted(q, n) <==> Mounted(pod, n) || n in Missing(driver, pod)
  {
    var ps := Patches(driver, pod);
    PatchesFit(driver, pod);
    PatchedIff(driver, pod, n);
    AllMountedAfter(pod, ps, n);
  }

  lemma AllMountedAfter(pod: Pod, ps: seq<Patch>, n: string)
    requires forall p | p in ps :: Fits(pod, p.where)
    ensures Mounted(GrownAll(pod, ps), n) <==> Mounted(pod, n) || exists where :: Patched(ps, where, n)
  {
    MainMountedAfter(pod, ps, n);
    InitMountedAfter(pod, ps, n);
    if where :| Patched(ps, where, n) {
      var p :| p in ps && p.where == where && p.mount.name == n;
      assert Fits(pod, where);
      assert where == Main(where.i) || where == Init(where.i);
    }
  }

  // ---- what the driver finds ----

  /** Every mounted union has all its pod volumes mounted. */
  ghost predicate Closed(driver: string, pod: Pod) {
    forall n :: Wanted(driver, pod, n) && HasVolume(pod, n) ==> Mounted(pod, n)
  }

  /** A source of a mounted union that nothing mounts is no union with a source of which
      the same is to be said: one that nothing mounts and no mounted union is built from. */
  ghost predicate NothingNested(driver: string, pod: Pod) {
    forall v, n | v in pod.volumes && IsUnion(driver, v) && Wanted(driver, pod, v.name)
        && n in UnionSources(driver, v) ::
      HasVolume(pod, n) ==> Mounted(pod, v.name) || Mounted(pod, n) || Wanted(driver, pod, n)
  }

  ghost predicate NoUnionOfUnions(driver: string, pod: Pod) {
    forall u, v | u in pod.volumes && v in pod.volumes && IsUnion(driver, u) && IsUnion(driver, v) ::
      v.name !in UnionSources(driver, u)
  }

  /** So nothing is nested where no union of the driver is a source of another. */
  lemma FlatPodsNestNothing(driver: string, pod: Pod)
    requires NoUnionOfUnions(driver, pod)
    ensures NothingNested(driver, pod)
  {}

  lemma ClosedIffNothingMissing(driver: string, pod: Pod)
    ensures Closed(driver, pod) <==> Missing(driver, pod) == []
  {
    if Closed(driver, pod) {
      if Missing(driver, pod) != [] {
        assert Missing(driver, pod)[0] in Missing(driver, pod);
        MissingIff(driver, pod, Missing(driver, pod)[0]);
      }
    } else {
      var n :| Wanted(driver, pod, n) && HasVolume(pod, n) && !Mounted(pod, n);
      MissingIff(driver, pod, n);
    }
  }

  /** Admission closes the pod, so that no union that is mounted waits for a source that
      kubelet never sets up, exactly if the patch mounts no union with further sources; and
      then admitting the patched pod again changes nothing. What was mounted before the
      patch is always served, nested or not. */
  lemma AdmissionCloses(driver: string, pod: Pod)
    ensures var q := GrownAll(pod, Patches(driver, pod));
            && Admit(driver, pod) == Some(q)
            && (Closed(driver, q) <==> NothingNested(driver, pod))
            && (Admit(driver, q) == Some(q) <==> NothingNested(driver, pod))
            && forall n | Wanted(driver, pod, n) && HasVolume(pod, n) :: Mounted(q, n)
  {
    var q := GrownAll(pod, Patches(driver, pod));
    AdmitGrows(driver, pod);
    AdmitGrows(driver, q);
    forall n ensures Mounted(q, n) <==> Mounted(pod, n) || n in Missing(driver, pod) {
      MountedAfter(driver, pod, n);
    }
    forall n | Wanted(driver, pod, n) && HasVolume(pod, n) ensures Mounted(q, n) {
      MissingIff(driver, pod, n);
    }
    ClosedIffNothingNested(driver, pod, q);
    ClosedIffNothingMissing(driver, q);
    AdmitIsIdentityIff(driver, q);
  }

  lemma ClosedIffNothingNested(driver: string, pod: Pod, q: Pod)
    requires q.volumes == pod.volumes && forall n :: Mounted(q, n) <==> Mounted(pod, n) || n in Missing(driver, pod)
    ensures Closed(driver, q) <==> NothingNested(driver, pod)
  {
    forall n ensures n in Missing(driver, pod) <==> HasVolume(pod, n) && !Mounted(pod, n) && Wanted(driver, pod, n) {
      MissingIff(driver, pod, n);
    }
    if Closed(driver, q) {
      ClosedMeansFlat(driver, pod, q);
    }
    if NothingNested(driver, pod) {
      FlatMeansClosed(driver, pod, q);
    }
  }

  /** q mounts what pod does and what it lacks. */
  ghost predicate MountsMissing(driver: string, pod: Pod, q: Pod) {
    && q.volumes == pod.volumes
    && forall n :: Mounted(q, n) <==> Mounted(pod, n) || (HasVolume(pod, n) && Wanted(driver, pod, n))
  }

  lemma ClosedMeansFlat(driver: string, pod: Pod, q: Pod)
    requires MountsMissing(driver, pod, q) && Closed(driver, q)
    ensures NothingNested(driver, pod)
  {
    forall v, n | v in pod.volumes && IsUnion(driver, v) && Wanted(driver, pod, v.name) && n in UnionSources(driver, v)
        && HasVolume(pod, n)
      ensures Mounted(pod, v.name) || Mounted(pod, n) || Wanted(driver, pod, n)
    {
      assert HasVolume(pod, v.name);
      assert Mounted(q, v.name) && Wanted(driver, q, n) && HasVolume(q, n);
    }
  }

  lemma FlatMeansClosed(driver: string, pod: Pod, q: Pod)
    requires MountsMissing(driver, pod, q) && NothingNested(driver, pod)
    ensures Closed(driver, q)
  {
    forall n | Wanted(driver, q, n) && HasVolume(q, n) ensures Mounted(q, n) {
      var v :| v in q.volumes && IsUnion(driver, v) && Mounted(q, v.name) && n in UnionSources(driver, v);
      assert HasVolume(pod, n);
      if Mounted(pod, v.name) {
        assert Wanted(driver, pod, n);
      }
    }
  }

  lemma AdmitIsIdentityIff(driver: string, pod: Pod)
    ensures Admit(driver, pod) == Some(pod) <==> Missing(driver, pod) == []
  {
    AdmitGrows(driver, pod);
    var q := GrownAll(pod, Patches(driver, pod));
    if Missing(driver, pod) == [] {
      assert Patches(driver, pod) == [];
      ApplyGrows(pod, []);
    } else {
      var n := Missing(driver, pod)[0];
      assert n in Missing(driver, pod);
      MissingIff(driver, pod, n);
      MountedAfter(driver, pod, n);
    }
  }
}
