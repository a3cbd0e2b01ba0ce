/** The part of a pod that kubelet, the driver and the admission policy look at. */
module Pods {
  import opened Optional

  /** Plugins that keep a pod volume in a directory of their own name. */
  datatype Plugin = EmptyDir | ConfigMap | Secret | DownwardAPI | Projected | NFS | ISCSI | FC

  datatype VolumeSource =
    | Claim(claimName: string)
    | EphemeralClaim
    | CSI(driver: string, attributes: map<string, string>, readOnly: bool)
    | InTree(plugin: Plugin)
    | HostPath(path: string)
    | Image
    | Unsupported

  datatype Volume = Volume(name: string, source: VolumeSource)

  datatype VolumeMount = VolumeMount(name: string, mountPath: string, readOnly: bool)

  datatype Container = Container(mounts: Option<seq<VolumeMount>>, devices: seq<string>)

  datatype Pod = Pod(
    name: string, uid: string, volumes: seq<Volume>,
    containers: seq<Container>, initContainers: seq<Container>, ephemeralContainers: seq<Container>)

  function Mounts(c: Container): seq<VolumeMount> {
    if c.mounts.Some? then c.mounts.value else []
  }

  predicate Mounting(c: Container, n: string) {
    exists m | m in Mounts(c) :: m.name == n
  }

  predicate Uses(c: Container, n: string) {
    Mounting(c, n) || n in c.devices
  }

  predicate UsedIn(cs: seq<Container>, n: string) {
    exists c | c in cs :: Uses(c, n)
  }

  /** Some container mounts the volume or has it as a device, so kubelet sets it up. */
  predicate Used(pod: Pod, n: string) {
    UsedIn(pod.initContainers, n) || UsedIn(pod.containers, n) || UsedIn(pod.ephemeralContainers, n)
  }

  predicate DistinctNames(pod: Pod) {
    forall i, j | 0 <= i < j < |pod.volumes| :: pod.volumes[i].name != pod.volumes[j].name
  }

  predicate HasVolume(pod: Pod, n: string) {
    exists v | v in pod.volumes :: v.name == n
  }

  /** ReferencedVolumes. */
  method ReferencedVolumes(pod: Pod) returns (refs: set<string>)
    ensures forall n :: n in refs <==> Used(pod, n)
  {
    var init := AddUses({}, pod.initContainers);
    var main := AddUses(init, pod.containers);
    refs := AddUses(main, pod.ephemeralContainers);
  }

  method AddUses(refs: set<string>, cs: seq<Container>) returns (more: set<string>)
    ensures forall n :: n in more <==> n in refs || UsedIn(cs, n)
  {
    more := refs;
    for i := 0 to |cs|
      invariant forall n :: n in more <==> n in refs || UsedIn(cs[..i], n)
    {
      var mounts, devices := Mounts(cs[i]), cs[i].devices;
      var before := more;
      for j := 0 to |mounts|
        invariant forall n :: n in more <==> n in before || exists k :: 0 <= k < j && mounts[k].name == n
      {
        more := more + {mounts[j].name};
      }
      for j := 0 to |devices|
        invariant forall n :: n in more <==> n in before || Mounting(cs[i], n) || n in devices[..j]
      {
        more := more + {devices[j]};
      }
      UsedInNext(cs, i);
    }
    assert cs[..|cs|] == cs;
  }

  lemma UsedInNext(cs: seq<Container>, i: nat)
    requires i < |cs|
    ensures forall n :: UsedIn(cs[..i + 1], n) <==> UsedIn(cs[..i], n) || Uses(cs[i], n)
  {
    assert cs[..i + 1] == cs[..i] + [cs[i]];
  }
}
