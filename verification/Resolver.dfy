/** From the names of pod volumes to the directories kubelet publishes them at
    (pkg/volsource/resolve.go). Lookups in the cluster are parameters. */
module Resolver {
  import opened Optional
  import opened Paths
  import opened HostPolicy
  import opened Pods
  import opened Sharing
  import Resolution

  type SourcePath = Resolution.SourcePath

  datatype Lookup<T> = Found(value: T) | Missing | Unavailable

  /** A claim: the volume it is bound to, if any, and the uid of the object that controls it. */
  datatype PVC = PVC(volumeName: string, controller: string)

  datatype PV = PvCSI | PvHostPath(path: string) | PvLocal | PvNFS | PvISCSI | PvFC | PvOther

  datatype Cluster = Cluster(claims: string -> Lookup<PVC>, volumes: string -> Lookup<PV>)

  /** Resolver. */
  datatype Setup = Setup(kubeletRoot: string, hostPaths: HostPaths, ownDriver: string)

  predicate GoodSetup(r: Setup) {
    IsAbs(r.kubeletRoot) && Valid(r.hostPaths)
  }

  datatype Why =
    | NotInPod
    | NotMounted
    | NotReady
    | LookupFailed
    | NotCreatedForPod
    | MountCycle
    | ImageVolume
    | UnsupportedVolume
    | HostPathRefused
    | Escapes

  datatype Answer<T> = Ok(value: T) | No(why: Why)

  /** A source lives among the pod's volumes, or under the host path mount with its policy. */
  predicate IsSource(r: Setup, pod: Pod, p: SourcePath)
    requires GoodSetup(r)
  {
    && IsAbs(p.root) && IsAbs(p.path)
    && if p.hostPaths.Some? then p.root == r.hostPaths.root && p.hostPaths.value == r.hostPaths
       else p.root == VolumesDir(r.kubeletRoot, pod.uid)
  }

  /** An answer for volume n. */
  predicate Answers(r: Setup, pod: Pod, n: string, a: Answer<SourcePath>)
    requires GoodSetup(r)
  {
    a.Ok? ==> a.value.name == n && IsSource(r, pod, a.value)
  }

  // ---- one volume ----

  function PluginDir(p: Plugin): (dir: string)
    ensures Proper(dir)
  {
    match p
    case EmptyDir => "kubernetes.io~empty-dir"
    case ConfigMap => "kubernetes.io~configmap"
    case Secret => "kubernetes.io~secret"
    case DownwardAPI => "kubernetes.io~downward-api"
    case Projected => "kubernetes.io~projected"
    case NFS => "kubernetes.io~nfs"
    case ISCSI => "kubernetes.io~iscsi"
    case FC => "kubernetes.io~fc"
  }

  /** Mounted by a plugin, so that readiness means being a mount point. */
  predicate IsMounted(p: Plugin) {
    p.NFS? || p.ISCSI? || p.FC?
  }

  function InVolumes(volumesDir: string, name: string, dir: string, entry: string, mounted: bool): (p: SourcePath)
    requires IsAbs(volumesDir)
    ensures IsAbs(p.path)
  {
    Resolution.SourcePath(name, JoinPath(JoinPath(volumesDir, dir), entry), mounted, volumesDir, None)
  }

  function CsiVolume(volumesDir: string, name: string, entry: string): (p: SourcePath)
    requires IsAbs(volumesDir)
    ensures IsAbs(p.path)
  {
    var path := JoinPath(JoinPath(JoinPath(volumesDir, "kubernetes.io~csi"), entry), "mount");
    Resolution.SourcePath(name, path, true, volumesDir, None)
  }

  function HostVolume(r: Setup, name: string, path: string): (a: Answer<SourcePath>)
    requires GoodSetup(r)
    ensures (forall pod :: Answers(r, pod, name, a)) && (a.No? ==> a.why == HostPathRefused)
  {
    match Resolution.HostPathSource(r.hostPaths, name, path)
    case Ok(p) => Ok(p)
    case Err(_) => No(HostPathRefused)
  }

  /** resolveOne. */
  function ResolveOne(r: Setup, cluster: Cluster, pod: Pod, v: Volume): (a: Answer<SourcePath>)
    requires GoodSetup(r)
    ensures Answers(r, pod, v.name, a) && a != No(NotMounted) && a != No(NotInPod)
    ensures a == No(MountCycle) <==> v.source.CSI? && v.source.driver == r.ownDriver
  {
    var dir := VolumesDir(r.kubeletRoot, pod.uid);
    match v.source
    case Claim(claim) => ResolveClaim(r, cluster, pod, v.name, claim, false)
    case EphemeralClaim => ResolveClaim(r, cluster, pod, v.name, pod.name + "-" + v.name, true)
    case CSI(driver, _, _) => if driver == r.ownDriver then No(MountCycle) else Ok(CsiVolume(dir, v.name, v.name))
    case InTree(p) => Ok(InVolumes(dir, v.name, PluginDir(p), v.name, IsMounted(p)))
    case HostPath(path) => HostVolume(r, v.name, path)
    case Image => No(ImageVolume)
    case Unsupported => No(UnsupportedVolume)
  }

  /** The claim and the persistent volume it names are there. */
  predicate IsBound(cluster: Cluster, claim: string) {
    && cluster.claims(claim).Found? && cluster.claims(claim).value.volumeName != ""
    && cluster.volumes(cluster.claims(claim).value.volumeName).Found?
  }

  predicate IsOwn(cluster: Cluster, pod: Pod, claim: string, ephemeral: bool) {
    cluster.claims(claim).Found? && (ephemeral ==> cluster.claims(claim).value.controller == pod.uid)
  }

  /** The claim names a volume that is there, as far as the cluster answers. */
  predicate IsNamed(cluster: Cluster, claim: string)
    requires cluster.claims(claim).Found?
  {
    var name := cluster.claims(claim).value.volumeName;
    name != "" && !cluster.volumes(name).Missing?
  }

  predicate VolumeUnavailable(cluster: Cluster, claim: string)
    requires cluster.claims(claim).Found?
  {
    var name := cluster.claims(claim).value.volumeName;
    name != "" && cluster.volumes(name).Unavailable?
  }

  /** resolvePVC. A directory of a persistent volume is named after that volume. */
  function ResolveClaim(r: Setup, cluster: Cluster, pod: Pod, name: string, claim: string,
                        ephemeral: bool): (a: Answer<SourcePath>)
    requires GoodSetup(r)
    ensures Answers(r, pod, name, a) && a != No(NotMounted) && a != No(NotInPod) && a != No(MountCycle)
    ensures a.Ok? ==> IsBound(cluster, claim) && (ephemeral ==> cluster.claims(claim).value.controller == pod.uid)
    ensures a == No(NotCreatedForPod) <==>
              ephemeral && cluster.claims(claim).Found? && cluster.claims(claim).value.controller != pod.uid
    ensures a == No(NotReady) <==>
            || cluster.claims(claim).Missing?
            || (IsOwn(cluster, pod, claim, ephemeral) && !IsNamed(cluster, claim))
    ensures a == No(LookupFailed) <==>
            || cluster.claims(claim).Unavailable?
            || (IsOwn(cluster, pod, claim, ephemeral) && VolumeUnavailable(cluster, claim))
  {
    match cluster.claims(claim)
    case Missing => No(NotReady)
    case Unavailable => No(LookupFailed)
    case Found(pvc) =>
      if ephemeral && pvc.controller != pod.uid then No(NotCreatedForPod)
      else if pvc.volumeName == "" then No(NotReady)
      else
        match cluster.volumes(pvc.volumeName)
        case Missing => No(NotReady)
        case Unavailable => No(LookupFailed)
        case Found(pv) => ResolveVolume(r, pod, name, pvc.volumeName, pv)
  }

  function ResolveVolume(r: Setup, pod: Pod, name: string, pvName: string, pv: PV): (a: Answer<SourcePath>)
    requires GoodSetup(r)
    ensures Answers(r, pod, name, a) && (a.No? ==> a.why == HostPathRefused || a.why == UnsupportedVolume)
  {
    var dir := VolumesDir(r.kubeletRoot, pod.uid);
    match pv
    case PvCSI => Ok(CsiVolume(dir, name, pvName))
    case PvHostPath(path) => HostVolume(r, name, path)
    case PvOther => No(UnsupportedVolume)
    case _ => Ok(InVolumes(dir, name, VolumePluginDir(pv), pvName, true))
  }

  function VolumePluginDir(pv: PV): (dir: string)
    ensures Proper(dir) && dir != "kubernetes.io~csi"
  {
    match pv
    case PvNFS => PluginDir(NFS)
    case PvISCSI => PluginDir(ISCSI)
    case PvFC => PluginDir(FC)
    case _ => "kubernetes.io~local-volume"
  }

  // ---- all names ----

  /** The last volume called n. */
  function ByName(volumes: seq<Volume>, n: string): (v: Option<Volume>)
    ensures v.Some? ==> v.value in volumes && v.value.name == n
    ensures v.None? ==> forall w | w in volumes :: w.name != n
  {
    if volumes == [] then None
    else if volumes[|volumes| - 1].name == n then Some(volumes[|volumes| - 1])
    else ByName(volumes[..|volumes| - 1], n)
  }

  /** What becomes of one name. */
  function ResolveName(r: Setup, cluster: Cluster, pod: Pod, n: string): (a: Answer<SourcePath>)
    requires GoodSetup(r)
    ensures Answers(r, pod, n, a)
    ensures a.Ok? ==> Resolution.Contained(a.value.root, a.value.path)
    ensures a == No(NotMounted) <==> HasVolume(pod, n) && !Used(pod, n)
  {
    match ByName(pod.volumes, n)
    case None => No(NotInPod)
    case Some(v) =>
      if !Used(pod, n) then No(NotMounted)
      else
        match ResolveOne(r, cluster, pod, v)
        case No(why) => No(why)
        case Ok(p) => if Resolution.Contained(p.root, p.path) then Ok(p) else No(Escapes)
  }

  ghost function Asked(r: Setup, cluster: Cluster, pod: Pod, names: seq<string>): (answers: seq<Answer<SourcePath>>)
    requires GoodSetup(r)
    ensures |answers| == |names|
  {
    if names == [] then [] else [ResolveName(r, cluster, pod, names[0])] + Asked(r, cluster, pod, names[1..])
  }

  lemma {:induction false} AskedAt(r: Setup, cluster: Cluster, pod: Pod, names: seq<string>, i: nat)
    requires GoodSetup(r) && i < |names|
    ensures Asked(r, cluster, pod, names)[i] == ResolveName(r, cluster, pod, names[i])
  {
    if i > 0 {
      AskedAt(r, cluster, pod, names[1..], i - 1);
    }
  }

  /** All the answers, in order, or the first refusal among them. */
  ghost predicate Collects(answers: seq<Answer<SourcePath>>, a: Answer<seq<SourcePath>>) {
    if a.Ok? then |a.value| == |answers| && forall i | 0 <= i < |answers| :: answers[i] == Ok(a.value[i])
    else exists i :: 0 <= i < |answers| && answers[i] == No(a.why) && forall j | 0 <= j < i :: answers[j].Ok?
  }

  /** ResolveIn: the sources in the order of the names, or what is wrong with the first
      name that does not resolve. */
  method ResolveIn(r: Setup, cluster: Cluster, pod: Pod, names: seq<string>) returns (a: Answer<seq<SourcePath>>)
    requires GoodSetup(r)
    ensures Collects(Asked(r, cluster, pod, names), a)
  {
    var byName := Index(pod.volumes);
    var referenced := ReferencedVolumes(pod);
    ghost var answers := Asked(r, cluster, pod, names);
    var results: seq<SourcePath> := [];
    for i := 0 to |names|
      invariant |results| == i
      invariant forall j | 0 <= j < i :: answers[j] == Ok(results[j])
    {
      var one := ResolveListed(r, cluster, pod, byName, referenced, names, i, answers);
      if one.No? {
        return No(one.why);
      }
      results := results + [one.value];
    }
    return Ok(results);
  }

  /** One turn of that loop. */
  method ResolveListed(r: Setup, cluster: Cluster, pod: Pod, byName: map<string, Volume>, referenced: set<string>,
                       names: seq<string>, i: nat, ghost answers: seq<Answer<SourcePath>>)
    returns (a: Answer<SourcePath>)
    requires GoodSetup(r) && i < |names| && answers == Asked(r, cluster, pod, names)
    requires (forall n :: n in referenced <==> Used(pod, n)) && IsIndex(byName, pod.volumes)
    ensures a == answers[i]
  {
    var n := names[i];
    AskedAt(r, cluster, pod, names, i);
    if n !in byName {
      return No(NotInPod);
    }
    if n !in referenced {
      return No(NotMounted);
    }
    var one := ResolveOne(r, cluster, pod, byName[n]);
    if one.No? {
      return No(one.why);
    }
    if !Resolution.Contained(one.value.root, one.value.path) {
      return No(Escapes);
    }
    return one;
  }

  ghost predicate IsIndex(byName: map<string, Volume>, volumes: seq<Volume>) {
    forall n :: ByName(volumes, n) == if n in byName then Some(byName[n]) else None
  }

  method Index(volumes: seq<Volume>) returns (byName: map<string, Volume>)
    ensures IsIndex(byName, volumes)
  {
    byName := map[];
    for i := 0 to |volumes|
      invariant IsIndex(byName, volumes[..i])
    {
      assert volumes[..i + 1][..i] == volumes[..i];
      byName := byName[volumes[i].name := volumes[i]];
    }
    assert volumes[..|volumes|] == volumes;
  }

  // ---- where the sources are ----

  /** Whatever the names are, an accepted source lies below its root. */
  lemma SourcesAreContained(r: Setup, cluster: Cluster, pod: Pod, n: string)
    requires GoodSetup(r) && ResolveName(r, cluster, pod, n).Ok?
    ensures var p := ResolveName(r, cluster, pod, n).value; IsSource(r, pod, p) && Comps(p.root) <= Comps(p.path)
  {
    var p := ResolveName(r, cluster, pod, n).value;
    Resolution.ContainedIff(p.root, p.path);
  }

  /** Names of persistent volumes can stand for directories, as names of pod volumes do. */
  ghost predicate GoodNames(cluster: Cluster, pod: Pod) {
    && GoodPod(pod)
    && forall c :: cluster.claims(c).Found? && cluster.claims(c).value.volumeName != "" ==>
        Proper(cluster.claims(c).value.volumeName)
  }

  predicate IsClaim(v: Volume) {
    v.source.Claim? || v.source.EphemeralClaim?
  }

  function ClaimName(pod: Pod, v: Volume): string {
    if v.source.Claim? then v.source.claimName else pod.name + "-" + v.name
  }

  /** Name of the directory that kubelet keeps volume v in, below that of its plugin. */
  function EntryName(cluster: Cluster, pod: Pod, v: Volume): string {
    var claim := ClaimName(pod, v);
    if IsClaim(v) && cluster.claims(claim).Found? then cluster.claims(claim).value.volumeName else v.name
  }

  /** v is bound to a persistent volume of a CSI driver. */
  predicate ClaimsCsi(cluster: Cluster, pod: Pod, v: Volume) {
    IsClaim(v) && cluster.volumes(EntryName(cluster, pod, v)) == Found(PvCSI)
  }

  /** A source among the pod's volumes is a plugin's directory and an entry in it. */
  ghost predicate Placed(r: Setup, pod: Pod, p: SourcePath, plugin: string, entry: string)
    requires GoodSetup(r)
  {
    && Proper(plugin) && Proper(entry)
    && var cs := Comps(VolumesDir(r.kubeletRoot, pod.uid)) + [plugin, entry];
       p.path == Render(if plugin == "kubernetes.io~csi" then cs + ["mount"] else cs)
  }

  lemma InVolumesIsPlaced(r: Setup, pod: Pod, name: string, plugin: string, entry: string, mounted: bool)
    requires GoodSetup(r) && Proper(pod.uid) && Proper(plugin) && Proper(entry) && plugin != "kubernetes.io~csi"
    ensures Placed(r, pod, InVolumes(VolumesDir(r.kubeletRoot, pod.uid), name, plugin, entry, mounted), plugin, entry)
  {
    LayoutNames(r.kubeletRoot, pod.uid);
    var cs := Comps(r.kubeletRoot) + ["pods", pod.uid, "volumes"];
    CompsRender(cs);
    JoinNames(cs, plugin, entry);
  }

  lemma JoinNames(cs: seq<string>, a: string, b: string)
    requires AllProper(cs) && Proper(a) && Proper(b)
    ensures JoinPath(JoinPath(Render(cs), a), b) == Render(cs + [a, b]) && AllProper(cs + [a, b])
  {
    JoinName(cs, a);
    JoinName(cs + [a], b);
    assert cs + [a] + [b] == cs + [a, b];
  }

  lemma CsiVolumeIsPlaced(r: Setup, pod: Pod, name: string, entry: string)
    requires GoodSetup(r) && Proper(pod.uid) && Proper(entry)
    ensures Placed(r, pod, CsiVolume(VolumesDir(r.kubeletRoot, pod.uid), name, entry), "kubernetes.io~csi", entry)
  {
    LayoutNames(r.kubeletRoot, pod.uid);
    var cs := Comps(r.kubeletRoot) + ["pods", pod.uid, "volumes"];
    CompsRender(cs);
    JoinThree(cs, "kubernetes.io~csi", entry, "mount");
    CsiPath(r, pod, name, entry, cs);
  }

  lemma CsiPath(r: Setup, pod: Pod, name: string, entry: string, cs: seq<string>)
    requires GoodSetup(r) && AllProper(cs) && VolumesDir(r.kubeletRoot, pod.uid) == Render(cs)
    ensures CsiVolume(VolumesDir(r.kubeletRoot, pod.uid), name, entry).path
         == JoinPath(JoinPath(JoinPath(Render(cs), "kubernetes.io~csi"), entry), "mount")
  {}

  lemma JoinThree(cs: seq<string>, a: string, b: string, c: string)
    requires AllProper(cs) && Proper(a) && Proper(b) && Proper(c)
    ensures JoinPath(JoinPath(JoinPath(Render(cs), a), b), c) == Render(cs + [a, b] + [c])
  {
    JoinNames(cs, a, b);
    JoinName(cs + [a, b], c);
  }

  lemma SourceIsPlaced(r: Setup, cluster: Cluster, pod: Pod, v: Volume) returns (plugin: string)
    requires GoodSetup(r) && GoodNames(cluster, pod) && v in pod.volumes
    requires ResolveOne(r, cluster, pod, v).Ok? && ResolveOne(r, cluster, pod, v).value.hostPaths.None?
    ensures Placed(r, pod, ResolveOne(r, cluster, pod, v).value, plugin, EntryName(cluster, pod, v))
    ensures plugin == "kubernetes.io~csi" <==> v.source.CSI? || ClaimsCsi(cluster, pod, v)
    ensures v.source.CSI? ==> v.source.driver != r.ownDriver
  {
    var entry, p := EntryName(cluster, pod, v), ResolveOne(r, cluster, pod, v).value;
    match v.source {
      case CSI(_, _, _) =>
        plugin := "kubernetes.io~csi";
        CsiVolumeIsPlaced(r, pod, v.name, v.name);
      case InTree(t) =>
        plugin := PluginDir(t);
        InVolumesIsPlaced(r, pod, v.name, PluginDir(t), v.name, IsMounted(t));
      case Claim(c) =>
        plugin := VolumeIsPlaced(r, pod, v.name, entry, cluster.volumes(entry).value);
      case EphemeralClaim =>
        plugin := VolumeIsPlaced(r, pod, v.name, entry, cluster.volumes(entry).value);
      case HostPath(_) =>
        assert false;
    }
  }

  lemma VolumeIsPlaced(r: Setup, pod: Pod, name: string, entry: string, pv: PV) returns (plugin: string)
    requires GoodSetup(r) && Proper(pod.uid) && Proper(entry)
    requires ResolveVolume(r, pod, name, entry, pv).Ok? && ResolveVolume(r, pod, name, entry, pv).value.hostPaths.None?
    ensures Placed(r, pod, ResolveVolume(r, pod, name, entry, pv).value, plugin, entry)
    ensures plugin == "kubernetes.io~csi" <==> pv.PvCSI?
  {
    if pv.PvCSI? {
      plugin := "kubernetes.io~csi";
      CsiVolumeIsPlaced(r, pod, name, entry);
    } else {
      plugin := VolumePluginDir(pv);
      InVolumesIsPlaced(r, pod, name, plugin, entry, true);
    }
  }

  /** The host path that volume v stands for, if any: its own, or that of the persistent
      volume it is bound to. */
  function HostDir(cluster: Cluster, pod: Pod, v: Volume): Option<string> {
    if v.source.HostPath? then Some(v.source.path)
    else if !IsClaim(v) || !IsBound(cluster, ClaimName(pod, v)) then None
    else if v.source.EphemeralClaim? && cluster.claims(ClaimName(pod, v)).value.controller != pod.uid then None
    else
      match cluster.volumes(EntryName(cluster, pod, v)).value
      case PvHostPath(path) => Some(path)
      case _ => None
  }

  lemma HostVolumeIff(r: Setup, cluster: Cluster, pod: Pod, v: Volume)
    requires GoodSetup(r)
    ensures var a, dir := ResolveOne(r, cluster, pod, v), HostDir(cluster, pod, v);
            && (a.Ok? && a.value.hostPaths.Some? <==> dir.Some? && HostVolume(r, v.name, dir.value).Ok?)
            && (dir.Some? ==> a == HostVolume(r, v.name, dir.value))
  {}

  lemma HostVolumeAt(r: Setup, name: string, path: string)
    requires GoodSetup(r)
    ensures HostVolume(r, name, path).Ok? <==> Permitted(r.hostPaths, Comps(JoinPath("/", path)))
    ensures HostVolume(r, name, path).Ok? ==>
              Comps(HostVolume(r, name, path).value.path) == Comps(r.hostPaths.root) + Comps(JoinPath("/", path))
  {
    var cs := Comps(JoinPath("/", path));
    CompsJoin("/", path);
    CheckIsContainment(r.hostPaths, cs);
    JoinRendered(r.hostPaths.root, cs);
  }

  /** The containment assertion never fires on what the API server lets through, with one
      exception: below a host path mount directory that is "/" itself it refuses every
      permitted host path but "/". */
  lemma EscapesIff(r: Setup, cluster: Cluster, pod: Pod, n: string)
    requires GoodSetup(r) && GoodNames(cluster, pod) && Used(pod, n) && ByName(pod.volumes, n).Some?
    ensures ResolveName(r, cluster, pod, n) == No(Escapes) <==>
            var dir := HostDir(cluster, pod, ByName(pod.volumes, n).value);
            && Comps(r.hostPaths.root) == [] && dir.Some?
            && Comps(JoinPath("/", dir.value)) != [] && Permitted(r.hostPaths, Comps(JoinPath("/", dir.value)))
  {
    var v := ByName(pod.volumes, n).value;
    var a, dir := ResolveOne(r, cluster, pod, v), HostDir(cluster, pod, v);
    HostVolumeIff(r, cluster, pod, v);
    if dir.Some? {
      HostVolumeAt(r, v.name, dir.value);
    }
    if a.Ok? {
      Resolution.ContainedIff(a.value.root, a.value.path);
      if a.value.hostPaths.None? {
        var plugin := SourceIsPlaced(r, cluster, pod, v);
        PlacedIsBelow(r, pod, a.value, plugin, EntryName(cluster, pod, v));
      }
    }
  }

  const SLASH_ROOT := Setup("/k", HostPaths("/", ["/data"], []), "d")

  function HostPathPod(): Pod {
    Pod("p", "uid", [Volume("h", HostPath("/data"))], [Container(Some([VolumeMount("h", "/h", false)]), [])], [], [])
  }

  /** With host paths mounted at "/", the only allowed directory is refused as escaping. */
  lemma AllowedHostPathEscapes(cluster: Cluster)
    requires GoodNames(cluster, HostPathPod())
    ensures GoodSetup(SLASH_ROOT) && ResolveName(SLASH_ROOT, cluster, HostPathPod(), "h") == No(Escapes)
  {
    SlashRoot();
    HostPathPodUses();
    EscapesIff(SLASH_ROOT, cluster, HostPathPod(), "h");
  }

  lemma SlashRoot()
    ensures GoodSetup(SLASH_ROOT) && Comps(SLASH_ROOT.hostPaths.root) == []
    ensures Comps(JoinPath("/", "/data")) == ["data"] && Permitted(SLASH_ROOT.hostPaths, ["data"])
  {
    assert Render([]) == "/" && "/data" == "/" + "data";
    CompsRender([]);
    Resolution.OneName("data");
    JoinRendered("/", ["data"]);
    assert Render(["data"]) == "/data";
    assert Inside(["data"], "/data");
  }

  lemma HostPathPodUses()
    ensures Used(HostPathPod(), "h") && ByName(HostPathPod().volumes, "h") == Some(Volume("h", HostPath("/data")))
  {
    var pod := HostPathPod();
    var m := Mounts(pod.containers[0])[0];
    assert m.name == "h" && Uses(pod.containers[0], "h") && pod.containers[0] in pod.containers;
  }

  lemma PlacedIsBelow(r: Setup, pod: Pod, p: SourcePath, plugin: string, entry: string)
    requires GoodSetup(r) && Proper(pod.uid) && Placed(r, pod, p, plugin, entry)
    ensures var cs := Comps(VolumesDir(r.kubeletRoot, pod.uid)); cs != [] && IsAbs(p.path) && cs <= Comps(p.path)
  {
    LayoutNames(r.kubeletRoot, pod.uid);
    CompsRender(Comps(r.kubeletRoot) + ["pods", pod.uid, "volumes"]);
    var cs := Comps(VolumesDir(r.kubeletRoot, pod.uid)) + [plugin, entry];
    CompsRender(if plugin == "kubernetes.io~csi" then cs + ["mount"] else cs);
  }

  /** The cycle guard sees volumes of this driver, but not behind a claim: the directory of a
      source among the pod's volumes is the target of a union volume w exactly if the source
      is bound to a CSI persistent volume called like w. */
  lemma SourceIsAUnionIff(r: Setup, cluster: Cluster, pod: Pod, n: string, w: Volume)
    requires GoodSetup(r) && GoodNames(cluster, pod) && ResolveName(r, cluster, pod, n).Ok?
    requires ResolveName(r, cluster, pod, n).value.hostPaths.None?
    requires w in pod.volumes && w.source.CSI? && w.source.driver == r.ownDriver
    ensures ResolveName(r, cluster, pod, n).value.path == TargetOf(r.kubeletRoot, pod.uid, w.name) <==>
            var v := ByName(pod.volumes, n).value; ClaimsCsi(cluster, pod, v) && EntryName(cluster, pod, v) == w.name
  {
    var v := ByName(pod.volumes, n).value;
    var p, entry := ResolveName(r, cluster, pod, n).value, EntryName(cluster, pod, v);
    var plugin := SourceIsPlaced(r, cluster, pod, v);
    CsiVolumeIsPlaced(r, pod, w.name, w.name);
    if plugin != "kubernetes.io~csi" || entry != w.name {
      PlacedTells(Comps(VolumesDir(r.kubeletRoot, pod.uid)), plugin, entry, w.name);
    } else if v.source.CSI? {
      OthersAreCalledOtherwise(pod, v, w);
    }
  }

  /** A host path is one exactly if the host path mount shows the target at that place. */
  lemma HostSourceIsAUnionIff(r: Setup, name: string, path: string, target: string)
    requires GoodSetup(r) && HostVolume(r, name, path).Ok? && IsClean(target)
    ensures HostVolume(r, name, path).value.path == target <==>
            Comps(target) == Comps(r.hostPaths.root) + Comps(JoinPath("/", path))
  {
    var clean := JoinPath("/", path);
    CompsJoin("/", path);
    JoinRendered(r.hostPaths.root, Comps(clean));
    assert clean == Render(Comps(clean));
    assert HostVolume(r, name, path).value.path == JoinPath(r.hostPaths.root, clean);
  }

  function ClaimedUnionPod(driver: string): Pod {
    Pod("p", "uid", [Volume("u", CSI(driver, map[], false)), Volume("c", Claim("claim"))],
        [Container(Some([VolumeMount("c", "/c", false)]), [])], [], [])
  }

  function ClaimedUnionCluster(): Cluster {
    Cluster(_ => Found(PVC("u", "")), _ => Found(PvCSI))
  }

  /** The pod for which the guard does not see it: volume "c" claims the persistent volume
      "u", and "u" is a union of the pod. */
  lemma ClaimedUnionIsASource(r: Setup)
    requires GoodSetup(r)
    ensures var pod, cluster := ClaimedUnionPod(r.ownDriver), ClaimedUnionCluster();
            && GoodNames(cluster, pod) && ResolveName(r, cluster, pod, "c").Ok?
            && ResolveName(r, cluster, pod, "c").value.path == TargetOf(r.kubeletRoot, "uid", "u")
  {
    var pod, cluster := ClaimedUnionPod(r.ownDriver), ClaimedUnionCluster();
    ClaimIsUsed(r.ownDriver);
    ClaimIsResolved(r);
    ClaimIsPlaced(r);
    assert ByName(pod.volumes, "c") == Some(Volume("c", Claim("claim")));
  }

  lemma ClaimIsUsed(driver: string)
    ensures var pod := ClaimedUnionPod(driver);
            Used(pod, "c") && ByName(pod.volumes, "c") == Some(Volume("c", Claim("claim")))
  {
    var pod := ClaimedUnionPod(driver);
    var m := Mounts(pod.containers[0])[0];
    assert m.name == "c" && Uses(pod.containers[0], "c") && pod.containers[0] in pod.containers;
    assert pod.volumes[1].name == "c";
  }

  lemma ClaimIsResolved(r: Setup)
    requires GoodSetup(r)
    ensures var pod, cluster := ClaimedUnionPod(r.ownDriver), ClaimedUnionCluster();
            && GoodNames(cluster, pod)
            && ResolveOne(r, cluster, pod, Volume("c", Claim("claim"))) ==
                 Ok(CsiVolume(VolumesDir(r.kubeletRoot, "uid"), "c", "u"))
  {}

  lemma ClaimIsPlaced(r: Setup)
    requires GoodSetup(r)
    ensures var p := CsiVolume(VolumesDir(r.kubeletRoot, "uid"), "c", "u");
            p.path == TargetOf(r.kubeletRoot, "uid", "u") && Resolution.Contained(p.root, p.path)
  {
    var pod := ClaimedUnionPod(r.ownDriver);
    var p := CsiVolume(VolumesDir(r.kubeletRoot, "uid"), "c", "u");
    CsiVolumeIsPlaced(r, pod, "c", "u");
    PlacedIsBelow(r, pod, p, "kubernetes.io~csi", "u");
    Resolution.ContainedIff(p.root, p.path);
  }

  lemma OthersAreCalledOtherwise(pod: Pod, v: Volume, w: Volume)
    requires DistinctNames(pod) && v in pod.volumes && w in pod.volumes && v != w
    ensures v.name != w.name
  {
    var i :| 0 <= i < |pod.volumes| && pod.volumes[i] == v;
    var j :| 0 <= j < |pod.volumes| && pod.volumes[j] == w;
  }

  lemma PlacedTells(cs: seq<string>, plugin: string, entry: string, name: string)
    requires AllProper(cs) && Proper(plugin) && Proper(entry) && Proper(name)
    requires plugin != "kubernetes.io~csi" || entry != name
    ensures Render(if plugin == "kubernetes.io~csi" then cs + [plugin, entry] + ["mount"] else cs + [plugin, entry])
         != Render(cs + ["kubernetes.io~csi", name] + ["mount"])
  {
    var a := if plugin == "kubernetes.io~csi" then cs + [plugin, entry] + ["mount"] else cs + [plugin, entry];
    var b := cs + ["kubernetes.io~csi", name] + ["mount"];
    assert a[|cs|] == plugin && b[|cs|] == "kubernetes.io~csi";
    assert a[|cs| + 1] == entry && b[|cs| + 1] == name;
    if Render(a) == Render(b) {
      RenderInjective(a, b);
    }
  }
}
