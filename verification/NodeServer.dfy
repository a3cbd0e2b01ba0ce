/** NodePublishVolume and NodeUnpublishVolume on top of the mergerfs backend
    (pkg/driver/node.go). */
module NodeServer {
  import opened MountSpecs
  import opened Argv
  import opened Paths
  import opened Pods
  import opened Supervision
  import opened SupervisionSafety
  import opened SupervisionRuns
  import opened SharedRuns
  import opened MergerfsBackend
  import opened Publishing
  import Policy
  import Resolver
  import Schemas

  /** The record of a published volume says what was requested. */
  ghost predicate RecordsRequest(c: Setup, node: Node, pod: Pod, req: Request, sandbox: bool, st: Record)
    requires GoodSetup(c)
  {
    exists spec :: Requested(c, node, pod, req, spec) && (PlainOptions(spec.options) ==> Describes(st, spec, sandbox))
  }

  ghost predicate MayServe(b: Backend, c: Setup, pod: Resolver.Lookup<Pod>, req: Request, from: Decisions)
    reads b, b.stale
  {
    && b.Valid() && GoodSetup(c) && IsAbs(req.target)
    && req.volumeID in b.cfg.targetOf && b.cfg.targetOf[req.volumeID] == req.target && req.volumeID !in b.ops
    && Follows(from, b.World()) && req.volumeID in from
    && (pod.Found? ==> from[req.volumeID] == SourceOf(SharedFor(c, pod.value, req)))
  }

  /** A serving mount, recorded as requested: as a union where nothing is shared, or as a view. */
  ghost predicate AsRequested(c: Setup, node: Node, pod: Resolver.Lookup<Pod>, req: Request, sandbox: bool,
                              source: Target, s: State)
    requires GoodSetup(c)
  {
    && pod.Found? && Acceptable(c, pod, req) && Probe(s, req.target) == Live && req.volumeID in s.records
    && if source == "" then RecordsRequest(c, node, pod.value, req, sandbox, s.records[req.volumeID])
       else IsViewOf(s, req, source)
  }

  /** A publish that mounts ends with a daemon that serves what was requested, or with a view
      of what the driver decided it shares; the decisions are kept to. */
  method NodePublish(b: Backend, c: Setup, node: Node, pod: Resolver.Lookup<Pod>, req: Request,
                     ready: bool, sandbox: bool, o: Outcome, ghost from: Decisions)
    returns (ok: bool, ghost es: seq<Event>)
    requires MayServe(b, c, pod, req, from)
    modifies b
    ensures b.Valid() && RunsTo(b.cfg, old(b.World()), es, b.World()) && Follows(from, b.World())
    ensures ok && req.target in old(b.mounts) ==> b.World() == old(b.World())
    ensures !ok && o.undo && req.target !in old(b.mounts) ==> req.target !in b.mounts
    ensures ok && req.target !in old(b.mounts) ==>
              AsRequested(c, node, pod, req, sandbox, from[req.volumeID], b.World())
  {
    var d := DecideUnmounted(c, node, pod, req, req.target in b.mounts, ready);
    if d.AlreadyMounted? {
      return true, [];
    }
    if d.Refuse? {
      return false, [];
    }
    ok, es := Carry(b, d, req, sandbox, o, from);
  }

  /** The decision after a look at the target that succeeded. */
  method DecideUnmounted(c: Setup, node: Node, pod: Resolver.Lookup<Pod>, req: Request, mounted: bool, ready: bool)
    returns (d: Decision)
    requires GoodSetup(c) && IsAbs(req.target)
    ensures d.AlreadyMounted? ==> mounted
    ensures d.MountAs? || d.ShareOf? ==> !mounted && Acceptable(c, pod, req)
    ensures d.MountAs? ==> SourceOf(SharedFor(c, pod.value, req)) == "" && Requested(c, node, pod.value, req, d.spec)
    ensures d.ShareOf? ==> SourceOf(SharedFor(c, pod.value, req)) == d.view.source != ""
  {
    d := Decide(c, node, pod, req, Resolver.Found(mounted), ready);
  }

  /** Making the target and calling the backend. */
  method Carry(b: Backend, d: Decision, req: Request, sandbox: bool, o: Outcome, ghost from: Decisions)
    returns (ok: bool, ghost es: seq<Event>)
    requires b.Valid() && req.volumeID in b.cfg.targetOf && b.cfg.targetOf[req.volumeID] == req.target
             && req.volumeID !in b.ops
    requires req.target !in b.mounts && Follows(from, b.World()) && req.volumeID in from
    requires d.MountAs? || d.ShareOf?
    requires d.MountAs? ==> d.spec.volumeID == req.volumeID && d.spec.target == req.target && from[req.volumeID] == ""
    requires d.ShareOf? ==> from[req.volumeID] == d.view.source != ""
    modifies b
    ensures b.Valid() && RunsTo(b.cfg, old(b.World()), es, b.World()) && Follows(from, b.World())
    ensures ok ==> Probe(b.World(), req.target) == Live && req.volumeID in b.records
    ensures !ok && o.undo ==> req.target !in b.mounts
    ensures ok && d.MountAs? && PlainOptions(d.spec.options) ==> Describes(b.records[req.volumeID], d.spec, sandbox)
    ensures ok && d.ShareOf? ==> IsViewOf(b.World(), req, d.view.source)
  {
    ghost var s0 := b.World();
    MakeTarget(b, req.target);
    ghost var s1 := b.World();
    RunsOne(b.cfg, s0, TargetMade(req.target));
    StepFollows(b.cfg, from, s0, TargetMade(req.target));
    ghost var tail;
    if d.MountAs? {
      ok, tail := MountRequested(b, d.spec, sandbox, o, from);
    } else {
      ok, tail := PublishShared(b, d.view.source, req, o, from);
    }
    RunsAppend(b.cfg, s0, [TargetMade(req.target)], s1, tail, b.World());
    es := [TargetMade(req.target)] + tail;
  }

  /** The volume is recorded as a view of source and shows the mount of the same daemon. */
  ghost predicate IsViewOf(s: State, req: Request, source: Target) {
    && Holds(s, req.volumeID, Record(req.volumeID, req.target, [], [], source, req.readOnly))
    && source in s.mounts && req.target in s.mounts && s.mounts[req.target].owner == s.mounts[source].owner
  }

  method MountRequested(b: Backend, spec: MountSpec, sandbox: bool, o: Outcome, ghost from: Decisions)
    returns (ok: bool, ghost es: seq<Event>)
    requires b.Valid() && spec.volumeID in b.cfg.targetOf && b.cfg.targetOf[spec.volumeID] == spec.target
             && spec.volumeID !in b.ops
    requires spec.target !in b.mounts && spec.target in b.dirs
    requires Follows(from, b.World()) && spec.volumeID in from && from[spec.volumeID] == ""
    modifies b
    ensures b.Valid() && RunsTo(b.cfg, old(b.World()), es, b.World()) && Follows(from, b.World())
    ensures ok ==> Probe(b.World(), spec.target) == Live && spec.volumeID in b.records
    ensures !ok && o.undo ==> spec.target !in b.mounts
    ensures ok && PlainOptions(spec.options) ==> Describes(b.records[spec.volumeID], spec, sandbox)
  {
    ghost var s0 := b.World();
    ok, es := b.MountUnion(spec, sandbox, o);
    RunFollows(b.cfg, from, s0, es);
  }

  /** publishShared. */
  method PublishShared(b: Backend, source: Target, req: Request, o: Outcome, ghost from: Decisions)
    returns (ok: bool, ghost es: seq<Event>)
    requires b.Valid() && req.volumeID in b.cfg.targetOf && b.cfg.targetOf[req.volumeID] == req.target
             && req.volumeID !in b.ops
    requires req.target !in b.mounts && req.target in b.dirs
    requires Follows(from, b.World()) && req.volumeID in from && from[req.volumeID] == source && source != ""
    modifies b
    ensures b.Valid() && RunsTo(b.cfg, old(b.World()), es, b.World()) && Follows(from, b.World())
    ensures ok ==> Probe(b.World(), req.target) == Live && IsViewOf(b.World(), req, source)
    ensures !ok ==> req.target !in b.mounts
  {
    ghost var s0 := b.World();
    ok, es := b.ShareUnion(req.volumeID, source, req.target, req.readOnly, o);
    RunFollows(b.cfg, from, s0, es);
  }

  method MakeTarget(b: Backend, target: Target)
    requires b.Valid()
    modifies b`dirs
    ensures b.Valid() && b.World() == Apply(b.cfg, old(b.World()), TargetMade(target))
  {
    StepKeepsInv(b.cfg, b.World(), TargetMade(target));
    b.dirs := b.dirs + {target};
  }

  /** A successful unpublish leaves nothing of the volume: no record, mount or target. */
  method NodeUnpublish(b: Backend, id: Id, target: Target, o: Outcome, removes: bool)
    returns (ok: bool, ghost es: seq<Event>)
    requires b.Valid() && id in b.cfg.targetOf && b.cfg.targetOf[id] == target && id !in b.ops
    modifies b
    ensures b.Valid() && RunsTo(b.cfg, old(b.World()), es, b.World())
    ensures ok <==> o.detach && o.remove && removes
    ensures ok ==> id !in b.records && target !in b.mounts && target !in b.dirs
  {
    ghost var s0 := b.World();
    ok, es := b.UnmountUnion(id, target, o);
    if ok && removes {
      ghost var s1 := b.World();
      StepKeepsInv(b.cfg, s1, TargetRemoved(target));
      b.dirs := b.dirs - {target};
      Extend(b.cfg, s0, es, s1, TargetRemoved(target));
      es := es + [TargetRemoved(target)];
    }
    ok := ok && removes;
  }

  /** With a validated policy for the mergerfs backend, the record of a published union reads
      back as what the pod asked for: the sources in declared order with their modes, and
      exactly the options of the policy. */
  lemma RecordReadsBack(c: Setup, node: Node, pod: Pod, req: Request, sandbox: bool, st: Record)
    returns (spec: MountSpec)
    requires GoodSetup(c) && c.schema == Schemas.MergerfsSchema(sandbox) && Policy.Validated(c.schema, c.policy)
    requires RecordsRequest(c, node, pod, req, sandbox, st)
    ensures Requested(c, node, pod, req, spec) && Describes(st, spec, sandbox)
    ensures forall other :: Requested(c, node, pod, req, other) ==> other == spec
  {
    spec :| Requested(c, node, pod, req, spec) && (PlainOptions(spec.options) ==> Describes(st, spec, sandbox));
    Schemas.MergerfsSchemaIsPlain(sandbox);
    RequestedIsPlain(c, node, pod, req, spec);
    forall other | Requested(c, node, pod, req, other) ensures other == spec {
      RequestedOnce(c, node, pod, req, other, spec);
    }
  }
}
