/** mountUnion of the overlay backend (pkg/backend/overlay/mount_linux.go): the kernel is
    given open directories, by their /proc/self/fd paths. */
module OverlayBackend {
  import opened MountSpecs
  import opened Policy
  import opened Overlay
  import opened OverlayClassic
  import Argv
  import Schemas

  /** What is mounted: one directory, or an overlay set up through either interface. */
  datatype Mounted =
    | NotMounted
    | Bound(dir: string, readOnly: bool)
    | Configured(calls: seq<Call>, readOnly: bool)
    | Classic(data: string, readOnly: bool)

  function FdPath(fd: nat): (path: string)
    ensures path != ""
  {
    "/proc/self/fd/" + Argv.Decimal(fd)
  }

  function FdPaths(fds: seq<nat>): (paths: seq<string>)
    ensures |paths| == |fds| && forall i | 0 <= i < |fds| :: paths[i] == FdPath(fds[i])
  {
    seq(|fds|, i requires 0 <= i < |fds| => FdPath(fds[i]))
  }

  /** The open directories of a union: one per source, and for a writable one its upper and
      work directories. */
  datatype Opened = Opened(sources: seq<nat>, upper: nat, work: nat)

  predicate HasWritable(spec: MountSpec) {
    spec.sources != [] && spec.sources[0].mode == RW
  }

  predicate IsReadOnly(spec: MountSpec) {
    spec.readOnly || forall s | s in spec.sources :: s.mode == RO
  }

  /** The layout that the request stands for, over the open directories. */
  function OpenLayout(spec: MountSpec, fds: Opened): Layout
    requires |fds.sources| == |spec.sources|
  {
    if HasWritable(spec)
    then
      Layout(FdPaths(fds.sources[1..]), spec.sources[0].path, FdPath(fds.upper), FdPath(fds.work),
             IsReadOnly(spec), spec.options)
    else Layout(FdPaths(fds.sources), "", "", "", IsReadOnly(spec), spec.options)
  }

  /** mountUnion: one source is bound, several are stacked in the order declared; and the
      kernel is told the same through both interfaces, whatever the options the policy let
      through. */
  method MountUnion(spec: MountSpec, fds: Opened, opens: bool, modern: bool) returns (m: Mounted)
    requires Absolute(spec.sources) && |fds.sources| == |spec.sources|
    ensures m == NotMounted <==> !(opens && spec.sources != [] && Stackable(spec.sources))
    ensures m != NotMounted && |spec.sources| == 1 ==>
              m == Bound(FdPath(if HasWritable(spec) then fds.upper else fds.sources[0]), IsReadOnly(spec))
    ensures m != NotMounted && |spec.sources| > 1 && modern ==>
              m == Configured(Told(OpenLayout(spec, fds), Schemas.OVERLAY_SCHEMA), IsReadOnly(spec))
    ensures m != NotMounted && |spec.sources| > 1 && !modern ==>
              && m.Classic? && m.readOnly == IsReadOnly(spec)
              && (AllSchemaOk(Schemas.OVERLAY_SCHEMA, spec.options) ==>
                  Read(m.data) == Told(OpenLayout(spec, fds), Schemas.OVERLAY_SCHEMA))
  {
    var plan := PlanLayout(spec);
    if plan.Bad? || !opens {
      return NotMounted;
    }
    var l := plan.layout;
    LayoutShape(spec, l);
    var first := if l.upper != "" then 1 else 0;
    if l.upper != "" {
      l := l.(upper := FdPath(fds.upper), work := FdPath(fds.work));
    }
    var lowers := OpenLowers(l.lowers, fds.sources[first..]);
    l := l.(lowers := lowers);
    assert fds.sources[0..] == fds.sources;
    assert l == OpenLayout(spec, fds);
    if Single(l) != "" {
      return Bound(Single(l), l.readOnly);
    }
    if modern {
      var calls := MountFsconfig(l, Schemas.OVERLAY_SCHEMA);
      return Configured(calls, l.readOnly);
    }
    var data := MountClassic(l, Schemas.OVERLAY_SCHEMA);
    if AllSchemaOk(Schemas.OVERLAY_SCHEMA, spec.options) {
      ValidOptionsAreHarmless(spec.options);
    }
    return Classic(data, l.readOnly);
  }

  lemma LayoutShape(spec: MountSpec, l: Layout)
    requires Absolute(spec.sources) && spec.sources != [] && Stack(l) == BranchDirs(spec.sources)
    requires l.upper != "" <==> spec.sources[0].mode == RW
    ensures |l.lowers| == if HasWritable(spec) then |spec.sources| - 1 else |spec.sources|
  {
    assert |Stack(l)| == |spec.sources|;
    assert l.upper == "" ==> Stack(l) == l.lowers;
  }

  /** The loop that replaces each lower directory by its open one. */
  method OpenLowers(dirs: seq<string>, fds: seq<nat>) returns (lowers: seq<string>)
    requires |fds| == |dirs|
    ensures lowers == FdPaths(fds)
  {
    lowers := dirs;
    for i := 0 to |lowers|
      invariant |lowers| == |fds| && forall j | 0 <= j < i :: lowers[j] == FdPath(fds[j])
    {
      lowers := lowers[i := FdPath(fds[i])];
    }
  }
}
