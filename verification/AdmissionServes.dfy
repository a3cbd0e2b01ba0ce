/** What the admission policy does for the driver: both read the same names from a
    sourceVolumes attribute, so a union that is mounted finds its sources set up
    (charts/union-csi-driver/templates/mutatingadmissionpolicy.yaml,
    pkg/volsource/resolve.go). */
module AdmissionServes {
  import opened Optional
  import opened Text
  import opened Pods
  import opened Admission
  import Argv
  import Params
  import Sharing
  import Resolver

  lemma {:induction false} SplitHead(s: string, c: char)
    ensures Split(s, c)[0] == if c in s then Argv.CutFirst(s, c).0 else s
  {
    if s != "" {
      SplitHead(s[1..], c);
      assert s == [s[0]] + s[1..];
    }
  }

  lemma TrimKeepsNames(s: string)
    requires Params.ValidName(s)
    ensures Trim(s) == s
  {}

  function NamesOf(svs: seq<Params.SourceVolume>): (names: seq<string>)
    ensures |names| == |svs| && forall i | 0 <= i < |svs| :: names[i] == svs[i].name
  {
    seq(|svs|, i requires 0 <= i < |svs| => svs[i].name)
  }

  /** On every attribute the driver accepts, the policy reads the names the driver reads. */
  lemma PolicyReadsDriverNames(g: Params.Grammar, raw: string)
    requires Params.Sources(g, raw).Some?
    ensures SourceNames(raw) == NamesOf(Params.Sources(g, raw).value)
  {
    var entries, svs := Split(raw, ','), Params.Sources(g, raw).value;
    forall i | 0 <= i < |entries| ensures SourceNames(raw)[i] == svs[i].name {
      assert svs[i] in svs && svs[i] == Params.Entry(g, entries[i]);
      SplitHead(entries[i], '=');
      TrimKeepsNames(svs[i].name);
    }
  }

  lemma MountedIsUsed(pod: Pod, n: string)
    requires Mounted(pod, n)
    ensures Used(pod, n)
  {
    if c :| c in pod.containers && Mounting(c, n) {
      assert Uses(c, n);
    } else {
      var c :| c in pod.initContainers && Mounting(c, n);
      assert Uses(c, n);
    }
  }

  lemma SourceIsWanted(d: Sharing.Driver, pod: Pod, v: Volume, i: nat)
    requires v in pod.volumes && Sharing.DeclaredUnion(d, v).Some? && Mounted(pod, v.name)
    requires i < |Sharing.DeclaredUnion(d, v).value.sources|
    ensures Wanted(d.name, pod, Sharing.DeclaredUnion(d, v).value.sources[i].name)
  {
    var raw := Params.Get(v.source.attributes, "sourceVolumes");
    PolicyReadsDriverNames(d.grammar, raw);
    assert IsUnion(d.name, v) && SourceNames(raw)[i] in UnionSources(d.name, v);
  }

  /** In the pod that is created, no publish of a union that some container mounted before
      the patch fails because a source is not mounted; if nothing is nested, no publish of
      any union that a container mounts does. */
  lemma AdmittedUnionsFindTheirSources(d: Sharing.Driver, r: Resolver.Setup, cluster: Resolver.Cluster, pod: Pod,
                                       q: Pod, v: Volume, i: nat)
    requires Resolver.GoodSetup(r) && Admit(d.name, pod) == Some(q)
    requires v in q.volumes && Sharing.DeclaredUnion(d, v).Some? && i < |Sharing.DeclaredUnion(d, v).value.sources|
    requires Mounted(pod, v.name) || (Mounted(q, v.name) && NothingNested(d.name, pod))
    ensures var n := Sharing.DeclaredUnion(d, v).value.sources[i].name;
            Resolver.ResolveName(r, cluster, q, n) != Resolver.No(Resolver.NotMounted)
  {
    var n := Sharing.DeclaredUnion(d, v).value.sources[i].name;
    AdmissionCloses(d.name, pod);
    if HasVolume(q, n) {
      SourceIsWanted(d, if Mounted(pod, v.name) then pod else q, v, i);
      assert HasVolume(pod, n);
      MountedIsUsed(q, n);
    }
  }

  // ---- the case the policy does not close ----

  function UnionOf(driver: string, name: string, source: string): Volume {
    Volume(name, CSI(driver, map["sourceVolumes" := source], false))
  }

  /** A union of a union: only the outer one is mounted. */
  function NestedPod(driver: string): Pod {
    Pod("p", "u", [UnionOf(driver, "a", "b"), UnionOf(driver, "b", "c"), Volume("c", InTree(EmptyDir))],
        [Container(Some([VolumeMount("a", "/a", false)]), [])], [], [])
  }

  /** The policy then mounts the inner union, which kubelet publishes and the driver refuses
      because nothing mounts its source. */
  lemma NestedUnionStaysOpen(driver: string, r: Resolver.Setup, cluster: Resolver.Cluster)
    requires Resolver.GoodSetup(r)
    ensures var pod := NestedPod(driver);
            && !NothingNested(driver, pod)
            && exists q :: && Admit(driver, pod) == Some(q) && Mounted(q, "b") && !Closed(driver, q)
                           && Resolver.ResolveName(r, cluster, q, "c") == Resolver.No(Resolver.NotMounted)
  {
    var q := NestedPodAfter(driver);
    assert HasVolume(q, "c") && !Used(q, "c");
  }

  lemma NestedPodAfter(driver: string) returns (q: Pod)
    ensures Admit(driver, NestedPod(driver)) == Some(q) && !NothingNested(driver, NestedPod(driver))
            && !Closed(driver, q)
    ensures Mounted(q, "b") && HasVolume(q, "c") && !Used(q, "c")
  {
    NestedNames(driver);
    OnlyAMounted(NestedPod(driver), driver);
    q := UnwantedStaysOpen(driver, NestedPod(driver));
  }

  lemma UnwantedStaysOpen(driver: string, pod: Pod) returns (q: Pod)
    requires HasVolume(pod, "b") && HasVolume(pod, "c") && !Mounted(pod, "b") && !Mounted(pod, "c")
    requires Wanted(driver, pod, "b") && !Wanted(driver, pod, "c")
    requires UnionOf(driver, "b", "c") in pod.volumes && "c" in UnionSources(driver, UnionOf(driver, "b", "c"))
    requires NoneUses(pod)
    ensures Admit(driver, pod) == Some(q) && !NothingNested(driver, pod) && !Closed(driver, q)
    ensures Mounted(q, "b") && HasVolume(q, "c") && !Used(q, "c")
  {
    MissingIff(driver, pod, "b");
    MissingIff(driver, pod, "c");
    q := InnerStaysOpen(driver, pod, UnionOf(driver, "b", "c"), "c");
  }

  /** No container uses a block device, and none was added to the running pod. */
  predicate NoneUses(pod: Pod) {
    && pod.ephemeralContainers == []
    && (forall c | c in pod.containers :: c.devices == []) && (forall c | c in pod.initContainers :: c.devices == [])
  }

  /** Whenever the patch mounts a union v with a source n that it does not mount. */
  lemma InnerStaysOpen(driver: string, pod: Pod, v: Volume, n: string) returns (q: Pod)
    requires v in pod.volumes && IsUnion(driver, v) && v.name in Missing(driver, pod) && n in UnionSources(driver, v)
    requires HasVolume(pod, n) && !Mounted(pod, n) && n !in Missing(driver, pod)
    requires NoneUses(pod)
    ensures Admit(driver, pod) == Some(q) && !NothingNested(driver, pod) && !Closed(driver, q)
    ensures Mounted(q, v.name) && HasVolume(q, n) && !Used(q, n)
  {
    q := GrownAll(pod, Patches(driver, pod));
    AdmissionCloses(driver, pod);
    MountedAfter(driver, pod, v.name);
    MountedAfter(driver, pod, n);
    NoDevices(pod, Patches(driver, pod));
    NotUsed(q, n);
  }

  lemma NoDevices(pod: Pod, ps: seq<Patch>)
    requires NoneUses(pod)
    ensures NoneUses(GrownAll(pod, ps))
  {
    var q := GrownAll(pod, ps);
    forall i | 0 <= i < |pod.containers| ensures q.containers[i].devices == [] {
      assert pod.containers[i] in pod.containers;
    }
    forall i | 0 <= i < |pod.initContainers| ensures q.initContainers[i].devices == [] {
      assert pod.initContainers[i] in pod.initContainers;
    }
  }

  lemma NestedNames(driver: string)
    ensures SourceNames("b") == ["b"] && SourceNames("c") == ["c"]
  {
    forall s: string | |s| == 1 && s[0] != ',' && s[0] != '=' && !IsSpace(s[0]) ensures SourceNames(s) == [s] {
      SplitWhole(s, ',');
      SplitWhole(s, '=');
      assert Trim(s) == s;
    }
    assert SourceNames("b") == ["b"];
    assert SourceNames("c") == ["c"];
  }

  lemma OnlyAMounted(pod: Pod, driver: string)
    requires pod == NestedPod(driver) && SourceNames("b") == ["b"] && SourceNames("c") == ["c"]
    ensures Mounted(pod, "a") && !Mounted(pod, "b") && !Mounted(pod, "c")
    ensures HasVolume(pod, "b") && HasVolume(pod, "c") && Wanted(driver, pod, "b") && !Wanted(driver, pod, "c")
    ensures NoneUses(pod)
    ensures UnionOf(driver, "b", "c") in pod.volumes && "c" in UnionSources(driver, UnionOf(driver, "b", "c"))
  {
    var c := pod.containers[0];
    assert Mounts(c)[0].name == "a" && c in pod.containers && Mounting(c, "a");
    var a, b := pod.volumes[0], pod.volumes[1];
    assert a in pod.volumes && b in pod.volumes && pod.volumes[2] in pod.volumes;
    assert IsUnion(driver, a) && UnionSources(driver, a) == ["b"] && UnionSources(driver, b) == ["c"];
  }

  lemma NotUsed(q: Pod, n: string)
    requires !Mounted(q, n) && NoneUses(q)
    ensures !Used(q, n)
  {}
}
