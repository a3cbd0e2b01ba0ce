/** How the volumes of one pod that declare the same union agree on who mounts it
    (pkg/driver/node.go). Each publish decides alone, from the pod spec. */
module Sharing {
  import opened Optional
  import opened Paths
  import opened Pods
  import Params

  /** What the driver is configured with, as far as sharing looks at it. */
  datatype Driver = Driver(name: string, kubeletRoot: string, grammar: Params.Grammar)

  /** unionDecl: what makes two volumes the same union. */
  datatype Union = Union(sources: seq<Params.SourceVolume>, options: map<string, string>, readOnly: bool)

  datatype View = View(name: string, source: string)

  /** declaredUnion. */
  ghost function DeclaredUnion(d: Driver, v: Volume): Option<Union> {
    if !v.source.CSI? || v.source.driver != d.name then None
    else
      match Params.Declared(d.grammar, v.source.attributes)
      case None => None
      case Some(a) => Some(Union(a.sources, a.options, v.source.readOnly))
  }

  method ParseUnion(d: Driver, v: Volume) returns (u: Option<Union>)
    ensures u == DeclaredUnion(d, v)
  {
    if !v.source.CSI? || v.source.driver != d.name {
      return None;
    }
    var attrs := Params.ParseAttributes(d.grammar, v.source.attributes);
    return if attrs.Bad? then None else Some(Union(attrs.value.sources, attrs.value.options, v.source.readOnly));
  }

  // ---- kubelet's layout ----

  function VolumesDir(root: string, uid: string): (dir: string)
    requires IsAbs(root)
    ensures IsAbs(dir)
  {
    JoinPath(JoinPath(JoinPath(root, "pods"), uid), "volumes")
  }

  function CsiDir(root: string, uid: string): (dir: string)
    requires IsAbs(root)
    ensures IsAbs(dir)
  {
    JoinPath(VolumesDir(root, uid), "kubernetes.io~csi")
  }

  function TargetOf(root: string, uid: string, name: string): (target: string)
    requires IsAbs(root)
    ensures IsAbs(target)
  {
    JoinPath(JoinPath(CsiDir(root, uid), name), "mount")
  }

  /** The volume a target belongs to, if the target is laid out as kubelet does. */
  function Self(root: string, uid: string, target: string): Option<string>
    requires IsAbs(root) && IsAbs(target)
  {
    var volumeDir := Dir(target);
    if Base(target) != "mount" || Dir(volumeDir) != CsiDir(root, uid) then None else Some(Base(volumeDir))
  }

  lemma LayoutNames(root: string, uid: string)
    requires IsAbs(root) && Proper(uid)
    ensures var cs := Comps(root) + ["pods", uid, "volumes"];
            && AllProper(cs) && AllProper(cs + ["kubernetes.io~csi"])
            && VolumesDir(root, uid) == Render(cs) && CsiDir(root, uid) == Render(cs + ["kubernetes.io~csi"])
  {
    var cs := Comps(root);
    assert JoinPath(root, "pods") == Render(cs + ["pods"]) by {
      CompsRender(cs);
      JoinName(cs, "pods");
      CompsJoin(root, "pods");
      CompsJoin(Render(cs), "pods");
    }
    JoinName(cs + ["pods"], uid);
    JoinName(cs + ["pods"] + [uid], "volumes");
    JoinName(cs + ["pods"] + [uid] + ["volumes"], "kubernetes.io~csi");
    assert cs + ["pods"] + [uid] + ["volumes"] == cs + ["pods", uid, "volumes"];
  }

  lemma TargetNames(root: string, uid: string, name: string)
    requires IsAbs(root) && Proper(uid) && Proper(name)
    ensures AllProper(Comps(root) + ["pods", uid, "volumes", "kubernetes.io~csi", name, "mount"])
    ensures Comps(TargetOf(root, uid, name))
         == Comps(root) + ["pods", uid, "volumes", "kubernetes.io~csi", name, "mount"]
  {
    LayoutNames(root, uid);
    var cs := Comps(root) + ["pods", uid, "volumes"] + ["kubernetes.io~csi"];
    JoinName(cs, name);
    JoinName(cs + [name], "mount");
    assert cs + [name] + ["mount"] == Comps(root) + ["pods", uid, "volumes", "kubernetes.io~csi", name, "mount"];
    CompsRender(cs + [name] + ["mount"]);
  }

  /** The target of a volume tells the volume, and no two volumes share one. */
  lemma TargetTellsVolume(root: string, uid: string, name: string)
    requires IsAbs(root) && Proper(uid) && Proper(name)
    ensures Self(root, uid, TargetOf(root, uid, name)) == Some(name)
  {
    LayoutNames(root, uid);
    var cs := Comps(root) + ["pods", uid, "volumes"] + ["kubernetes.io~csi"];
    JoinName(cs, name);
    JoinName(cs + [name], "mount");
    var whole := cs + [name] + ["mount"];
    assert whole[..|whole| - 1] == cs + [name] && (cs + [name])[..|cs|] == cs;
    DirRender(whole);
    DirRender(cs + [name]);
    BaseRender(whole);
    BaseRender(cs + [name]);
  }

  // ---- the search ----

  /** The declaration of the last volume called self. */
  ghost function Want(d: Driver, volumes: seq<Volume>, self: string): Option<Union> {
    if volumes == [] then None
    else if volumes[|volumes| - 1].name == self then DeclaredUnion(d, volumes[|volumes| - 1])
    else Want(d, volumes[..|volumes| - 1], self)
  }

  /** Volume i of the pod is set up by kubelet and declares u. */
  ghost predicate Declares(d: Driver, pod: Pod, u: Union, i: nat) {
    i < |pod.volumes| && Used(pod, pod.volumes[i].name) && DeclaredUnion(d, pod.volumes[i]) == Some(u)
  }

  /** Where the search for u stops when it starts at i. */
  ghost function Search(d: Driver, pod: Pod, self: string, u: Union, i: nat): (k: nat)
    requires i <= |pod.volumes|
    ensures i <= k <= |pod.volumes|
    ensures forall j | i <= j < k :: pod.volumes[j].name != self && !Declares(d, pod, u, j)
    ensures k < |pod.volumes| ==> pod.volumes[k].name == self || Declares(d, pod, u, k)
    decreases |pod.volumes| - i
  {
    if i == |pod.volumes| || pod.volumes[i].name == self || Declares(d, pod, u, i) then i
    else Search(d, pod, self, u, i + 1)
  }

  ghost function Shared(d: Driver, pod: Pod, target: string): Option<View>
    requires IsAbs(d.kubeletRoot) && IsAbs(target)
  {
    match Self(d.kubeletRoot, pod.uid, target)
    case None => None
    case Some(self) =>
      match Want(d, pod.volumes, self)
      case None => None
      case Some(u) =>
        var k := Search(d, pod, self, u, 0);
        if k == |pod.volumes| || pod.volumes[k].name == self then None
        else Some(View(pod.volumes[k].name, TargetOf(d.kubeletRoot, pod.uid, pod.volumes[k].name)))
  }

  /** sharedSource. */
  method SharedSource(d: Driver, pod: Pod, target: string) returns (view: Option<View>)
    requires IsAbs(d.kubeletRoot) && IsAbs(target)
    ensures view == Shared(d, pod, target)
  {
    var csiDir := CsiDir(d.kubeletRoot, pod.uid);
    var volumeDir := Dir(target);
    if Base(target) != "mount" || Dir(volumeDir) != csiDir {
      return None;
    }
    var self := Base(volumeDir);
    var want := FindWant(d, pod.volumes, self);
    if want.None? {
      return None;
    }
    var referenced := ReferencedVolumes(pod);
    for i := 0 to |pod.volumes|
      invariant Search(d, pod, self, want.value, 0) == Search(d, pod, self, want.value, i)
    {
      var v := pod.volumes[i];
      if v.name == self {
        return None;
      }
      if v.name !in referenced {
        continue;
      }
      var got := ParseUnion(d, v);
      if got == want {
        return Some(View(v.name, JoinPath(JoinPath(csiDir, v.name), "mount")));
      }
    }
    return None;
  }

  method FindWant(d: Driver, volumes: seq<Volume>, self: string) returns (want: Option<Union>)
    ensures want == Want(d, volumes, self)
  {
    want := None;
    for i := 0 to |volumes|
      invariant want == Want(d, volumes[..i], self)
    {
      assert volumes[..i + 1][..i] == volumes[..i];
      if volumes[i].name == self {
        want := ParseUnion(d, volumes[i]);
      }
    }
    assert volumes[..|volumes|] == volumes;
  }

  // ---- agreement ----

  /** What the API server guarantees of a pod. */
  predicate GoodPod(pod: Pod) {
    DistinctNames(pod) && Proper(pod.uid) && forall v | v in pod.volumes :: Proper(v.name)
  }

  function TargetAt(d: Driver, pod: Pod, i: nat): (target: string)
    requires IsAbs(d.kubeletRoot) && i < |pod.volumes|
    ensures IsAbs(target)
  {
    TargetOf(d.kubeletRoot, pod.uid, pod.volumes[i].name)
  }

  lemma {:induction false} WantIsOwn(d: Driver, volumes: seq<Volume>, i: nat)
    requires i < |volumes| && forall j | i < j < |volumes| :: volumes[j].name != volumes[i].name
    ensures Want(d, volumes, volumes[i].name) == DeclaredUnion(d, volumes[i])
  {
    if i < |volumes| - 1 {
      WantIsOwn(d, volumes[..|volumes| - 1], i);
    }
  }

  /** What a volume of a pod decides: the first volume that declares its union mounts it. */
  lemma SharedAt(d: Driver, pod: Pod, u: Union, i: nat, k: nat)
    requires IsAbs(d.kubeletRoot) && GoodPod(pod) && i < |pod.volumes|
    requires DeclaredUnion(d, pod.volumes[i]) == Some(u)
    requires k <= i && (Declares(d, pod, u, k) || k == i) && forall j | 0 <= j < k :: !Declares(d, pod, u, j)
    ensures Shared(d, pod, TargetAt(d, pod, i)) == if k == i then None
            else Some(View(pod.volumes[k].name, TargetAt(d, pod, k)))
  {
    var self := pod.volumes[i].name;
    assert pod.volumes[i] in pod.volumes;
    TargetTellsVolume(d.kubeletRoot, pod.uid, self);
    WantIsOwn(d, pod.volumes, i);
    var s := Search(d, pod, self, u, 0);
    assert s == k;
  }

  /** Every class of volumes that kubelet sets up and that declare the same union has exactly
      one member that mounts it, the first in the pod, and all others are views of that. */
  lemma OneMountsForAll(d: Driver, pod: Pod, u: Union, i: nat) returns (k: nat)
    requires IsAbs(d.kubeletRoot) && GoodPod(pod) && Declares(d, pod, u, i)
    ensures Declares(d, pod, u, k) && forall j | 0 <= j < k :: !Declares(d, pod, u, j)
    ensures forall j | 0 <= j < |pod.volumes| && Declares(d, pod, u, j) ::
              Shared(d, pod, TargetAt(d, pod, j)) == if j == k then None
                  else Some(View(pod.volumes[k].name, TargetAt(d, pod, k)))
  {
    k := 0;
    while !Declares(d, pod, u, k)
      invariant k <= i && forall j | 0 <= j < k :: !Declares(d, pod, u, j)
      decreases i - k
    {
      k := k + 1;
    }
    forall j | 0 <= j < |pod.volumes| && Declares(d, pod, u, j)
      ensures Shared(d, pod, TargetAt(d, pod, j)) == if j == k then None
              else Some(View(pod.volumes[k].name, TargetAt(d, pod, k)))
    {
      SharedAt(d, pod, u, j, k);
    }
  }

  /** A view is never shared from a view: whatever target the decision is made for, the
      volume it names is set up by kubelet and decides to mount for itself. */
  lemma ViewsAreOfMounts(d: Driver, pod: Pod, target: string) returns (k: nat)
    requires IsAbs(d.kubeletRoot) && IsAbs(target) && GoodPod(pod) && Shared(d, pod, target).Some?
    ensures k < |pod.volumes| && Used(pod, pod.volumes[k].name) && DeclaredUnion(d, pod.volumes[k]).Some?
    ensures Shared(d, pod, target) == Some(View(pod.volumes[k].name, TargetAt(d, pod, k)))
    ensures Shared(d, pod, TargetAt(d, pod, k)) == None
  {
    var self := Self(d.kubeletRoot, pod.uid, target).value;
    var u := Want(d, pod.volumes, self).value;
    k := Search(d, pod, self, u, 0);
    SharedAt(d, pod, u, k, k);
  }

  // ---- decisions that change ----

  /** The same pod later: an ephemeral container may have been added. */
  ghost predicate GrowsInto(p: Pod, q: Pod) {
    q.volumes == p.volumes && q.uid == p.uid && forall n :: Used(p, n) ==> Used(q, n)
  }

  /** What a volume decides changes exactly if another volume with the same declaration, and
      before all that were in use, has come into use. */
  lemma DecisionChangesIff(d: Driver, p: Pod, q: Pod, u: Union, i: nat, k: nat)
    requires IsAbs(d.kubeletRoot) && GoodPod(p) && GrowsInto(p, q) && Declares(d, p, u, i)
    requires Declares(d, p, u, k) && forall j | 0 <= j < k :: !Declares(d, p, u, j)
    ensures Shared(d, q, TargetAt(d, q, i)) != Shared(d, p, TargetAt(d, p, i)) <==>
            exists j :: 0 <= j < k && Declares(d, q, u, j)
  {
    SharedAt(d, p, u, i, k);
    var l := OneMountsForAll(d, q, u, i);
    assert Declares(d, q, u, k);
    SharedAt(d, q, u, i, l);
    if l < k {
      assert p.volumes[l].name != p.volumes[k].name;
      DistinctTargets(d, p, l, k);
    }
  }

  lemma DistinctTargets(d: Driver, p: Pod, l: nat, k: nat)
    requires IsAbs(d.kubeletRoot) && GoodPod(p) && l < |p.volumes| && k < |p.volumes| && l != k
    ensures TargetAt(d, p, l) != TargetAt(d, p, k)
  {
    assert p.volumes[l] in p.volumes && p.volumes[k] in p.volumes;
    TargetTellsVolume(d.kubeletRoot, p.uid, p.volumes[l].name);
    TargetTellsVolume(d.kubeletRoot, p.uid, p.volumes[k].name);
  }

  /** Three volumes with one declaration, of which the first comes into use late: the second
      one, which the third one views, becomes a view itself. */
  lemma ViewedBecomesView(d: Driver, p: Pod, q: Pod, u: Union)
    requires IsAbs(d.kubeletRoot) && GoodPod(p) && GrowsInto(p, q) && |p.volumes| == 3
    requires forall i | 0 <= i < 3 :: Declares(d, q, u, i)
    requires Declares(d, p, u, 1) && Declares(d, p, u, 2) && !Used(p, p.volumes[0].name)
    ensures Shared(d, p, TargetAt(d, p, 1)) == None
    ensures Shared(d, p, TargetAt(d, p, 2)) == Some(View(p.volumes[1].name, TargetAt(d, p, 1)))
    ensures Shared(d, q, TargetAt(d, q, 0)) == None
    ensures Shared(d, q, TargetAt(d, q, 1)) == Some(View(p.volumes[0].name, TargetAt(d, p, 0)))
  {
    SecondLeads(d, p, u);
    FirstLeads(d, q, u);
  }

  lemma SecondLeads(d: Driver, p: Pod, u: Union)
    requires IsAbs(d.kubeletRoot) && GoodPod(p) && |p.volumes| == 3
    requires Declares(d, p, u, 1) && Declares(d, p, u, 2) && !Used(p, p.volumes[0].name)
    ensures Shared(d, p, TargetAt(d, p, 1)) == None
    ensures Shared(d, p, TargetAt(d, p, 2)) == Some(View(p.volumes[1].name, TargetAt(d, p, 1)))
  {
    assert !Declares(d, p, u, 0);
    SharedAt(d, p, u, 1, 1);
    SharedAt(d, p, u, 2, 1);
  }

  lemma FirstLeads(d: Driver, q: Pod, u: Union)
    requires IsAbs(d.kubeletRoot) && GoodPod(q) && |q.volumes| == 3 && Declares(d, q, u, 0) && Declares(d, q, u, 1)
    ensures Shared(d, q, TargetAt(d, q, 0)) == None
    ensures Shared(d, q, TargetAt(d, q, 1)) == Some(View(q.volumes[0].name, TargetAt(d, q, 0)))
  {
    SharedAt(d, q, u, 0, 0);
    SharedAt(d, q, u, 1, 0);
  }
}
