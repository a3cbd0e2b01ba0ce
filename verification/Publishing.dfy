/** NodePublishVolume (pkg/driver/node.go): what a publish does, decided from the request,
    the pod and the node, before any backend is called. */
module Publishing {
  import opened Optional
  import opened MountSpecs
  import opened Paths
  import opened Pods
  import opened Sharing
  import opened HostPolicy
  import Argv
  import Params
  import Policy
  import Resolution
  import Resolver

  datatype Setup = Setup(
    driver: Driver, hostPaths: HostPaths, schema: Policy.Schema, policy: Policy.PolicyConfig, reuseMounts: bool)

  predicate GoodSetup(c: Setup) {
    IsAbs(c.driver.kubeletRoot) && Valid(c.hostPaths)
  }

  function ResolverOf(c: Setup): Resolver.Setup {
    Resolver.Setup(c.driver.kubeletRoot, c.hostPaths, c.driver.name)
  }

  /** What the node and the cluster look like: the entries below the pod's volumes
      directory, and those below the host path mount. */
  datatype Node = Node(cluster: Resolver.Cluster, volumes: Resolution.Tree, host: Resolution.Tree)

  datatype Request = Request(
    capability: bool, volumeID: string, target: string, context: map<string, string>, readOnly: bool)

  /** The status codes of refusals: Aborted is retried with backoff. */
  datatype Code = InvalidArgument | Aborted | Internal

  datatype Decision =
    | AlreadyMounted
    | Refuse(code: Code)
    | ShareOf(view: View)
    | MountAs(spec: MountSpec)

  const POD_NAME := "csi.storage.k8s.io/pod.name"
  const POD_NAMESPACE := "csi.storage.k8s.io/pod.namespace"
  const POD_UID := "csi.storage.k8s.io/pod.uid"
  const SERVICE_ACCOUNT := "csi.storage.k8s.io/serviceAccount.name"
  const EPHEMERAL := "csi.storage.k8s.io/ephemeral"

  // ---- what a publish asks for ----

  predicate PolicyPasses(c: Setup, options: map<string, string>) {
    forall k | k in options :: Policy.Passes(c.schema, c.policy, k, options[k])
  }

  function TreeFor(node: Node, p: Resolver.SourcePath): Resolution.Tree {
    if p.hostPaths.Some? then node.host else node.volumes
  }

  /** The branch that one source volume becomes. */
  ghost function BranchOf(c: Setup, node: Node, pod: Pod, sv: Params.SourceVolume): Option<Source>
    requires GoodSetup(c)
  {
    match Resolver.ResolveName(ResolverOf(c), node.cluster, pod, sv.name)
    case No(_) => None
    case Ok(p) =>
      match Resolution.RealPathSpec(p, TreeFor(node, p))
      case Err(_) => None
      case Ok(path) => Some(Source(path, sv.mode))
  }

  ghost predicate AreBranches(c: Setup, node: Node, pod: Pod, svs: seq<Params.SourceVolume>, sources: seq<Source>)
    requires GoodSetup(c)
  {
    |sources| == |svs| && forall i | 0 <= i < |svs| :: BranchOf(c, node, pod, svs[i]) == Some(sources[i])
  }

  /** The mount that a volume with these attributes stands for: its sources in the order and
      with the modes it declares them, and its options as the policy overlays them. */
  ghost predicate Requested(c: Setup, node: Node, pod: Pod, req: Request, spec: MountSpec)
    requires GoodSetup(c)
  {
    match Params.Declared(c.driver.grammar, req.context)
    case None => false
    case Some(a) =>
      && PolicyPasses(c, a.options)
      && AreBranches(c, node, pod, a.sources, spec.sources)
      && spec == MountSpec(req.volumeID, req.target, spec.sources, Policy.Merged(c.policy, a.options), req.readOnly)
  }

  predicate WellFormedRequest(req: Request) {
    && req.capability && req.volumeID != "" && req.target != "" && Params.Get(req.context, EPHEMERAL) == "true"
    && Params.Get(req.context, POD_NAMESPACE) != "" && Params.Get(req.context, POD_NAME) != ""
        && Params.Get(req.context, POD_UID) != ""
  }

  /** The request is well formed, and parsing and policy accept it. */
  ghost predicate Declares(c: Setup, req: Request) {
    var a := Params.Declared(c.driver.grammar, req.context);
    WellFormedRequest(req) && a.Some? && PolicyPasses(c, a.value.options)
  }

  ghost function SourcesOf(c: Setup, req: Request): seq<Params.SourceVolume> {
    match Params.Declared(c.driver.grammar, req.context)
    case None => []
    case Some(a) => a.sources
  }

  /** And the pod is the one it names. */
  ghost predicate Acceptable(c: Setup, pod: Resolver.Lookup<Pod>, req: Request) {
    Declares(c, req) && pod.Found? && pod.value.uid == Params.Get(req.context, POD_UID)
  }

  /** What is wrong with the source may pass: it is not set up yet, or cannot be reached. */
  ghost predicate Retryable(c: Setup, node: Node, pod: Pod, sv: Params.SourceVolume)
    requires GoodSetup(c)
  {
    match Resolver.ResolveName(ResolverOf(c), node.cluster, pod, sv.name)
    case No(why) => why.NotReady?
    case Ok(p) => Resolution.RealPathSpec(p, TreeFor(node, p)).Err?
  }

  ghost function SharedFor(c: Setup, pod: Pod, req: Request): Option<View>
    requires GoodSetup(c) && IsAbs(req.target)
  {
    if c.reuseMounts then Shared(c.driver, pod, req.target) else None
  }

  /** NodePublishVolume up to the call of the backend. The answers of the cluster, whether
      something is mounted at the target, and whether waiting for the sources ended well are
      parameters. A mount is exactly what was requested; it is decided only when the volume
      is no view of another one. */
  method Decide(c: Setup, node: Node, pod: Resolver.Lookup<Pod>, req: Request, mounted: Resolver.Lookup<bool>,
                ready: bool)
    returns (d: Decision)
    requires GoodSetup(c) && (req.target != "" ==> IsAbs(req.target))
    ensures d == AlreadyMounted <==> mounted == Resolver.Found(true) && MayPublish(req)
    ensures MayPublish(req) && mounted == Resolver.Found(false) && !Declares(c, req) ==> d == Refuse(InvalidArgument)
    ensures d == Refuse(Aborted) ==> Declares(c, req) && !pod.Unavailable?
    ensures d == Refuse(Aborted) && pod.Found? && ready ==>
            exists sv :: sv in SourcesOf(c, req)
              && Retryable(c, node, pod.value, sv)
    ensures d == Refuse(Internal) <==> MayPublish(req) && !mounted.Found?
    ensures d.MountAs? ==>
            && Acceptable(c, pod, req) && SharedFor(c, pod.value, req) == None
            && Requested(c, node, pod.value, req, d.spec)
    ensures d.ShareOf? ==> Acceptable(c, pod, req) && SharedFor(c, pod.value, req) == Some(d.view)
    ensures d.Refuse? && Acceptable(c, pod, req) && mounted == Resolver.Found(false) && ready ==>
              SharedFor(c, pod.value, req) == None && forall spec :: !Requested(c, node, pod.value, req, spec)
  {
    if !MayPublish(req) {
      return Refuse(InvalidArgument);
    }
    if !mounted.Found? {
      return Refuse(Internal);
    }
    if mounted.value {
      return AlreadyMounted;
    }
    var attrs := Params.ParseAttributes(c.driver.grammar, req.context);
    if attrs.Bad? || !WellFormedRequest(req) {
      return Refuse(InvalidArgument);
    }
    var options := Policy.Resolve(c.schema, c.policy, attrs.value.options);
    if options.Refuse? {
      return Refuse(InvalidArgument);
    }
    if !pod.Found? {
      return Refuse(if pod.Missing? then Aborted else InvalidArgument);
    }
    if pod.value.uid != Params.Get(req.context, POD_UID) {
      return Refuse(InvalidArgument);
    }
    if c.reuseMounts {
      var view := SharedSource(c.driver, pod.value, req.target);
      if view.Some? {
        return if ready then ShareOf(view.value) else Refuse(Aborted);
      }
    }
    var branches := Gather(c, node, pod.value, attrs.value.sources, ready);
    if branches.Stop? {
      if ready {
        ghost var sv :| sv in attrs.value.sources && BranchOf(c, node, pod.value, sv) == None;
        NothingRequested(c, node, pod.value, req, sv);
      }
      return Refuse(branches.code);
    }
    return MountAs(MountSpec(req.volumeID, req.target, branches.sources, options.options, req.readOnly));
  }

  predicate MayPublish(req: Request) {
    req.capability && req.volumeID != "" && req.target != "" && Params.Get(req.context, EPHEMERAL) == "true"
  }

  datatype Gathered = Branches(sources: seq<Source>) | Stop(code: Code)

  ghost predicate DistinctSources(svs: seq<Params.SourceVolume>) {
    forall i, j | 0 <= i < j < |svs| :: svs[i].name != svs[j].name
  }

  /** Resolving the source volumes and following their links. The modes are looked up by
      name again, which finds the declared ones because no name is listed twice. */
  method Gather(c: Setup, node: Node, pod: Pod, svs: seq<Params.SourceVolume>, ready: bool) returns (g: Gathered)
    requires GoodSetup(c) && DistinctSources(svs)
    ensures g.Branches? ==> ready && AreBranches(c, node, pod, svs, g.sources)
    ensures g.Stop? ==> g.code != Internal
    ensures g == Stop(Aborted) && ready ==> exists sv :: sv in svs && Retryable(c, node, pod, sv)
    ensures g == Stop(InvalidArgument) ==>
            exists sv :: sv in svs && !Retryable(c, node, pod, sv)
              && BranchOf(c, node, pod, sv) == None
  {
    var names, modeByName := Names(svs);
    var resolved := Resolver.ResolveIn(ResolverOf(c), node.cluster, pod, names);
    if resolved.No? {
      ghost var k := FirstRefused(c, node, pod, svs, names, resolved);
      assert svs[k] in svs;
      return Stop(if resolved.why.NotReady? then Aborted else InvalidArgument);
    }
    if !ready {
      return Stop(Aborted);
    }
    ghost var want := BranchesOf(c, node, pod, svs);
    var sources: seq<Source> := [];
    for i := 0 to |svs|
      invariant |sources| == i && forall j | 0 <= j < i :: want[j] == Some(sources[j])
    {
      var branch := FollowLinks(c, node, pod, svs, names, resolved.value[i], modeByName, i);
      if branch.None? {
        assert svs[i] in svs;
        return Stop(Aborted);
      }
      sources := sources + [branch.value];
    }
    CollectBranches(c, node, pod, svs, sources);
    return Branches(sources);
  }

  /** One turn of that loop. */
  method FollowLinks(c: Setup, node: Node, pod: Pod, svs: seq<Params.SourceVolume>, ghost names: seq<string>,
                     p: Resolver.SourcePath, modeByName: map<string, string>, i: nat)
    returns (branch: Option<Source>)
    requires GoodSetup(c) && i < |svs| && |names| == |svs| && names[i] == svs[i].name
    requires Resolver.Asked(ResolverOf(c), node.cluster, pod, names)[i] == Resolver.Ok(p)
    requires names[i] in modeByName && modeByName[names[i]] == svs[i].mode
    ensures branch == BranchesOf(c, node, pod, svs)[i]
    ensures branch.None? ==> Retryable(c, node, pod, svs[i])
  {
    BranchesAt(c, node, pod, svs, i);
    Resolver.AskedAt(ResolverOf(c), node.cluster, pod, names, i);
    var path := Resolution.RealPath(p, TreeFor(node, p));
    return if path.Err? then None else Some(Source(path.value, modeByName[p.name]));
  }

  ghost function BranchesOf(c: Setup, node: Node, pod: Pod, svs: seq<Params.SourceVolume>): (r: seq<Option<Source>>)
    requires GoodSetup(c)
    ensures |r| == |svs|
  {
    if svs == [] then [] else [BranchOf(c, node, pod, svs[0])] + BranchesOf(c, node, pod, svs[1..])
  }

  lemma {:induction false} BranchesAt(c: Setup, node: Node, pod: Pod, svs: seq<Params.SourceVolume>, i: nat)
    requires GoodSetup(c) && i < |svs|
    ensures BranchesOf(c, node, pod, svs)[i] == BranchOf(c, node, pod, svs[i])
  {
    if i > 0 {
      BranchesAt(c, node, pod, svs[1..], i - 1);
    }
  }

  lemma CollectBranches(c: Setup, node: Node, pod: Pod, svs: seq<Params.SourceVolume>, sources: seq<Source>)
    requires GoodSetup(c) && |sources| == |svs|
    requires forall i | 0 <= i < |svs| :: BranchesOf(c, node, pod, svs)[i] == Some(sources[i])
    ensures AreBranches(c, node, pod, svs, sources)
  {
    forall i | 0 <= i < |svs| ensures BranchOf(c, node, pod, svs[i]) == Some(sources[i]) {
      BranchesAt(c, node, pod, svs, i);
    }
  }

  lemma NothingRequested(c: Setup, node: Node, pod: Pod, req: Request, sv: Params.SourceVolume)
    requires GoodSetup(c) && sv in SourcesOf(c, req) && BranchOf(c, node, pod, sv) == None
    ensures forall spec :: !Requested(c, node, pod, req, spec)
  {
    var svs := SourcesOf(c, req);
    var i :| 0 <= i < |svs| && svs[i] == sv;
    forall sources ensures !AreBranches(c, node, pod, svs, sources) {
      if |sources| == |svs| {
        assert BranchOf(c, node, pod, svs[i]) != Some(sources[i]);
      }
    }
  }

  lemma FirstRefused(c: Setup, node: Node, pod: Pod, svs: seq<Params.SourceVolume>, names: seq<string>,
                     resolved: Resolver.Answer<seq<Resolver.SourcePath>>)
    returns (k: nat)
    requires GoodSetup(c) && |names| == |svs| && (forall i | 0 <= i < |svs| :: names[i] == svs[i].name) && resolved.No?
    requires Resolver.Collects(Resolver.Asked(ResolverOf(c), node.cluster, pod, names), resolved)
    ensures k < |svs|
    ensures Resolver.ResolveName(ResolverOf(c), node.cluster, pod, svs[k].name) == Resolver.No(resolved.why)
  {
    k :| 0 <= k < |names| && Resolver.Asked(ResolverOf(c), node.cluster, pod, names)[k] == Resolver.No(resolved.why);
    Resolver.AskedAt(ResolverOf(c), node.cluster, pod, names, k);
  }

  method Names(svs: seq<Params.SourceVolume>) returns (names: seq<string>, modeByName: map<string, string>)
    requires DistinctSources(svs)
    ensures |names| == |svs|
    ensures forall i | 0 <= i < |svs| ::
              && names[i] == svs[i].name && names[i] in modeByName
              && modeByName[names[i]] == svs[i].mode
  {
    names, modeByName := [], map[];
    for i := 0 to |svs|
      invariant |names| == i
      invariant forall j | 0 <= j < i ::
                  && names[j] == svs[j].name && names[j] in modeByName
                  && modeByName[names[j]] == svs[j].mode
    {
      names := names + [svs[i].name];
      modeByName := modeByName[svs[i].name := svs[i].mode];
    }
  }

  // ---- what a declaration means ----

  lemma RequestedOnce(c: Setup, node: Node, pod: Pod, req: Request, a: MountSpec, b: MountSpec)
    requires GoodSetup(c) && Requested(c, node, pod, req, a) && Requested(c, node, pod, req, b)
    ensures a == b
  {
    assert |a.sources| == |b.sources|;
    forall i | 0 <= i < |a.sources| ensures a.sources[i] == b.sources[i] {}
  }

  /** The attributes kubelet adds to those of the volume. */
  predicate IsPodInfo(info: map<string, string>) {
    info.Keys <= {POD_NAME, POD_NAMESPACE, POD_UID, SERVICE_ACCOUNT, EPHEMERAL}
  }

  /** The request kubelet makes for volume v. */
  function KubeletRequest(v: Volume, info: map<string, string>, id: string, target: string): Request
    requires v.source.CSI?
  {
    Request(true, id, target, v.source.attributes + info, v.source.readOnly)
  }

  /** The publish of a volume parses the same declaration that its pod spec shows to the
      publishes of the other volumes. */
  lemma RequestDeclaresVolume(g: Params.Grammar, attributes: map<string, string>, info: map<string, string>)
    requires IsPodInfo(info)
    ensures Params.Declared(g, attributes + info) == Params.Declared(g, attributes)
  {
    var all := attributes + info;
    assert "sourceVolumes" !in info && "options" !in info by { NotPodInfo(); }
    PodInfoIsKnown();
    assert Params.Get(all, "sourceVolumes") == Params.Get(attributes, "sourceVolumes");
    assert Params.Get(all, "options") == Params.Get(attributes, "options");
    assert all.Keys == attributes.Keys + info.Keys;
  }

  lemma NotPodInfo()
    ensures "sourceVolumes" !in {POD_NAME, POD_NAMESPACE, POD_UID, SERVICE_ACCOUNT, EPHEMERAL}
    ensures "options" !in {POD_NAME, POD_NAMESPACE, POD_UID, SERVICE_ACCOUNT, EPHEMERAL}
  {
    assert POD_NAME[0] == POD_NAMESPACE[0] == POD_UID[0] == SERVICE_ACCOUNT[0] == EPHEMERAL[0] == 'c';
    assert "sourceVolumes"[0] == 's' && "options"[0] == 'o';
  }

  lemma PodInfoIsKnown()
    ensures {POD_NAME, POD_NAMESPACE, POD_UID, SERVICE_ACCOUNT, EPHEMERAL} <= Params.KNOWN_ATTRIBUTES
  {}

  /** Sharing refines separate mounting: volumes with equal declarations stand for the same
      mount, up to id and target, so the view shows exactly what its own mount would have
      shown, and it would have been refused exactly if the other one is. */
  lemma EqualDeclarationsMountTheSame(c: Setup, node: Node, pod: Pod, v: Volume, w: Volume, info: map<string, string>,
                                      spec: MountSpec, id: string, target: string)
    requires GoodSetup(c) && IsPodInfo(info)
    requires DeclaredUnion(c.driver, v).Some? && DeclaredUnion(c.driver, v) == DeclaredUnion(c.driver, w)
    ensures Requested(c, node, pod, KubeletRequest(v, info, spec.volumeID, spec.target), spec)
       <==> Requested(c, node, pod, KubeletRequest(w, info, id, target), spec.(volumeID := id, target := target))
  {
    RequestDeclaresVolume(c.driver.grammar, v.source.attributes, info);
    RequestDeclaresVolume(c.driver.grammar, w.source.attributes, info);
  }

  /** So do volumes that only spell their declaration differently: the options in another
      order, or a default mode written out. */
  lemma AlikeVolumesMountTheSame(c: Setup, node: Node, pod: Pod, v: Volume, w: Volume, info: map<string, string>,
                                 spec: MountSpec, id: string, target: string)
    requires GoodSetup(c) && IsPodInfo(info) && DeclaredUnion(c.driver, v).Some?
    requires w.source.CSI? && w.source.driver == v.source.driver && w.source.readOnly == v.source.readOnly
    requires w.source.attributes.Keys <= Params.KNOWN_ATTRIBUTES
    requires var a, b := v.source.attributes, w.source.attributes;
             && Params.AlikeSources(c.driver.grammar, Params.Get(a, "sourceVolumes"), Params.Get(b, "sourceVolumes"))
             && Params.AlikeOptions(Params.Get(a, "options"), Params.Get(b, "options"))
    ensures DeclaredUnion(c.driver, w) == DeclaredUnion(c.driver, v)
    ensures Requested(c, node, pod, KubeletRequest(v, info, spec.volumeID, spec.target), spec)
       <==> Requested(c, node, pod, KubeletRequest(w, info, id, target), spec.(volumeID := id, target := target))
  {
    Params.AlikeAttributesDeclareTheSame(c.driver.grammar, v.source.attributes, w.source.attributes);
    EqualDeclarationsMountTheSame(c, node, pod, v, w, info, spec, id, target);
  }

  /** What parsing and policy accept can be written on a mergerfs command line and read back:
      there are sources, with modes of the grammar, and no option holds a separator. */
  lemma RequestedIsPlain(c: Setup, node: Node, pod: Pod, req: Request, spec: MountSpec)
    requires GoodSetup(c) && Policy.Validated(c.schema, c.policy) && Policy.PlainSchema(c.schema)
    requires Requested(c, node, pod, req, spec)
    ensures spec.sources != [] && (forall s | s in spec.sources :: s.mode in c.driver.grammar.modes)
    ensures Policy.AllSchemaOk(c.schema, spec.options) && Argv.PlainOptions(spec.options)
  {
    var a := Params.Declared(c.driver.grammar, req.context).value;
    Policy.ResultIsSafe(c.schema, c.policy, a.options);
    Policy.ValidOptionsArePlain(c.schema, spec.options);
    forall i | 0 <= i < |spec.sources| ensures spec.sources[i].mode in c.driver.grammar.modes {
      assert BranchOf(c, node, pod, a.sources[i]) == Some(spec.sources[i]);
      assert a.sources[i] in a.sources;
    }
  }
}
