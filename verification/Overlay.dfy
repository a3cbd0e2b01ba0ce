/** The overlay backend (pkg/backend/overlay/layout.go, mount_linux.go): from the sources of
    a union to what the kernel is told, through either of its two mount interfaces. */
module Overlay {
  import opened Ordering
  import opened MountSpecs
  import opened Paths
  import opened Policy
  import opened Optional

  // ---- the layout ----

  datatype Layout = Layout(
    lowers: seq<string>, rwRoot: string, upper: string, work: string, readOnly: bool, options: map<string, string>)

  datatype Fault = NoSources | SecondWritable | WritableNotFirst | UnknownMode(mode: string)

  datatype Planned = Plan(layout: Layout) | Bad(fault: Fault)

  const WORKSPACE := ".union-csi"

  function UpperDir(root: string): (dir: string)
    requires IsAbs(root)
    ensures IsAbs(dir)
  {
    JoinPath(JoinPath(root, WORKSPACE), "upper")
  }

  function WorkDir(root: string): (dir: string)
    requires IsAbs(root)
    ensures IsAbs(dir)
  {
    JoinPath(JoinPath(root, WORKSPACE), "work")
  }

  predicate Absolute(sources: seq<Source>) {
    forall s | s in sources :: IsAbs(s.path)
  }

  /** Read-only branches, below at most one writable branch that comes first. */
  predicate Stackable(sources: seq<Source>) {
    && (forall i | 0 < i < |sources| :: sources[i].mode == RO)
    && (sources != [] ==> sources[0].mode == RO || sources[0].mode == RW)
  }

  /** The directory that takes part in the merge for a source. */
  function BranchDir(s: Source): string
    requires IsAbs(s.path)
  {
    if s.mode == RW then UpperDir(s.path) else s.path
  }

  function BranchDirs(sources: seq<Source>): (dirs: seq<string>)
    requires Absolute(sources)
    ensures |dirs| == |sources| && forall i | 0 <= i < |dirs| :: dirs[i] == BranchDir(sources[i])
  {
    seq(|sources|, i requires 0 <= i < |sources| => BranchDir(sources[i]))
  }

  /** The kernel's stack: the upper layer, if any, then the lower ones. */
  function Stack(l: Layout): seq<string> {
    (if l.upper != "" then [l.upper] else []) + l.lowers
  }

  /** What is wrong with the first source that cannot be stacked on those before it. */
  function FaultAt(sources: seq<Source>, i: nat): Fault
    requires i < |sources|
  {
    if sources[i].mode == RW then (if sources[0].mode == RW then SecondWritable else WritableNotFirst)
    else UnknownMode(sources[i].mode)
  }

  /** planLayout: accepts exactly one writable branch on top of read-only ones, or read-only
      ones alone, and stacks the branches in the order they were declared. */
  method PlanLayout(spec: MountSpec) returns (r: Planned)
    requires Absolute(spec.sources)
    ensures r.Plan? <==> spec.sources != [] && Stackable(spec.sources)
    ensures r.Plan? ==> Stack(r.layout) == BranchDirs(spec.sources) && r.layout.options == spec.options
    ensures r.Plan? ==> (r.layout.upper != "" <==> spec.sources[0].mode == RW)
    ensures r.Plan? && r.layout.upper != "" ==>
            && r.layout.rwRoot == spec.sources[0].path
            && r.layout.work == WorkDir(spec.sources[0].path)
    ensures r.Plan? && r.layout.upper == "" ==> r.layout.rwRoot == ""  && r.layout.work == ""
    ensures r.Plan? ==> (r.layout.readOnly <==> spec.readOnly || forall s | s in spec.sources :: s.mode == RO)
    ensures r.Bad? ==> if spec.sources == [] then r.fault == NoSources
                       else
                           exists i :: 0 <= i < |spec.sources| && Stackable(spec.sources[..i])
                             && !Stackable(spec.sources[..i + 1]) && r.fault == FaultAt(spec.sources, i)
  {
    if spec.sources == [] {
      return Bad(NoSources);
    }
    var l := Layout([], "", "", "", false, spec.options);
    for i := 0 to |spec.sources|
      invariant Stackable(spec.sources[..i])
      invariant Stack(l) == BranchDirs(spec.sources[..i]) && l.options == spec.options
      invariant l.upper != "" <==> i > 0 && spec.sources[0].mode == RW
      invariant l.upper != "" ==> l.rwRoot == spec.sources[0].path && l.work == WorkDir(spec.sources[0].path)
      invariant l.upper == "" ==> l.rwRoot == "" && l.work == ""
    {
      Stacking(spec.sources, i);
      MoreDirs(spec.sources, i);
      assert i == 0 ==> Stack(l) == [];
      var r1 := AddSource(l, spec.sources[i], i == 0);
      if r1.Bad? {
        return r1;
      }
      l := r1.layout;
    }
    assert spec.sources[..|spec.sources|] == spec.sources;
    return Plan(l.(readOnly := spec.readOnly || l.upper == ""));
  }

  /** One turn of that loop. */
  method AddSource(l: Layout, s: Source, first: bool) returns (r: Planned)
    requires IsAbs(s.path) && (first ==> Stack(l) == [])
    ensures r.Plan? <==> s.mode == RO || (s.mode == RW && first)
    ensures r.Plan? ==> Stack(r.layout) == Stack(l) + [BranchDir(s)] && r.layout.options == l.options
    ensures r.Plan? && s.mode == RW ==>
            && r.layout.upper != "" && r.layout.rwRoot == s.path
            && r.layout.work == WorkDir(s.path)
    ensures r.Plan? && s.mode == RO ==>
            && r.layout.upper == l.upper && r.layout.rwRoot == l.rwRoot
            && r.layout.work == l.work
    ensures r.Bad? ==> r.fault == if s.mode != RW then UnknownMode(s.mode) else if l.upper != "" then SecondWritable
            else WritableNotFirst
  {
    if s.mode == RW {
      if l.upper != "" {
        return Bad(SecondWritable);
      }
      if !first {
        return Bad(WritableNotFirst);
      }
      return Plan(l.(rwRoot := s.path, upper := UpperDir(s.path), work := WorkDir(s.path)));
    } else if s.mode == RO {
      return Plan(l.(lowers := l.lowers + [s.path]));
    }
    return Bad(UnknownMode(s.mode));
  }

  lemma MoreDirs(sources: seq<Source>, i: nat)
    requires i < |sources| && Absolute(sources)
    ensures Absolute(sources[..i]) && Absolute(sources[..i + 1]) && IsAbs(sources[i].path)
    ensures BranchDirs(sources[..i + 1]) == BranchDirs(sources[..i]) + [BranchDir(sources[i])]
  {
    assert sources[i] in sources && sources[..i + 1][i] == sources[i];
    forall s | s in sources[..i + 1] ensures s in sources {}
  }

  lemma Stacking(sources: seq<Source>, i: nat)
    requires i < |sources| && Stackable(sources[..i])
    ensures Stackable(sources[..i + 1]) <==> sources[i].mode == RO || (sources[i].mode == RW && i == 0)
  {
    var longer := sources[..i + 1];
    assert longer[i] == sources[i];
    forall j | 0 < j < i ensures longer[j].mode == RO {
      assert sources[..i][j].mode == RO;
    }
    assert i > 0 ==> longer[0] == sources[..i][0];
  }

  // ---- what is visible ----

  /** What each directory holds, by name. */
  type Contents<T> = map<string, map<string, T>>

  predicate Holds<T>(contents: Contents<T>, dir: string, name: string) {
    dir in contents && name in contents[dir]
  }

  function LookupLower<T>(contents: Contents<T>, lowers: seq<string>, name: string): Option<T> {
    if lowers == [] then None
    else if Holds(contents, lowers[0], name) then Some(contents[lowers[0]][name])
    else LookupLower(contents, lowers[1..], name)
  }

  /** The kernel looks in the upper layer and then down the lower ones. */
  function Lookup<T>(contents: Contents<T>, l: Layout, name: string): Option<T> {
    if l.upper != "" && Holds(contents, l.upper, name) then Some(contents[l.upper][name])
    else LookupLower(contents, l.lowers, name)
  }

  /** found is what the leftmost branch that holds the name has under it. */
  ghost predicate LeftmostWins<T>(contents: Contents<T>, dirs: seq<string>, name: string, found: Option<T>) {
    if found.None? then forall i | 0 <= i < |dirs| :: !Holds(contents, dirs[i], name)
    else exists i :: && 0 <= i < |dirs| && Holds(contents, dirs[i], name) && contents[dirs[i]][name] == found.value
                     && forall j | 0 <= j < i :: !Holds(contents, dirs[j], name)
  }

  lemma {:induction false} LowerLeftmostWins<T>(contents: Contents<T>, lowers: seq<string>, name: string)
    ensures LeftmostWins(contents, lowers, name, LookupLower(contents, lowers, name))
  {
    if lowers != [] && !Holds(contents, lowers[0], name) {
      LowerLeftmostWins(contents, lowers[1..], name);
      var found := LookupLower(contents, lowers[1..], name);
      if found.Some? {
        var i :| && 0 <= i < |lowers[1..]| && Holds(contents, lowers[1..][i], name)
            && contents[lowers[1..][i]][name] == found.value
                 && forall j | 0 <= j < i :: !Holds(contents, lowers[1..][j], name);
        forall j | 0 <= j < i + 1 ensures !Holds(contents, lowers[j], name) {
          assert j > 0 ==> lowers[j] == lowers[1..][j - 1];
        }
        assert Holds(contents, lowers[i + 1], name);
      } else {
        forall i | 0 <= i < |lowers| ensures !Holds(contents, lowers[i], name) {
          assert i > 0 ==> lowers[i] == lowers[1..][i - 1];
        }
      }
    }
  }

  /** Looking a name up through the layers of any stacked layout finds what the leftmost
      declared source has, whatever the sources hold. */
  lemma LookupIsLeftmost<T>(contents: Contents<T>, sources: seq<Source>, l: Layout, name: string)
    requires Absolute(sources) && Stack(l) == BranchDirs(sources)
    ensures LeftmostWins(contents, BranchDirs(sources), name, Lookup(contents, l, name))
  {
    LowerLeftmostWins(contents, l.lowers, name);
    var dirs, found := Stack(l), Lookup(contents, l, name);
    if l.upper == "" {
      assert dirs == l.lowers;
    } else if Holds(contents, l.upper, name) {
      assert dirs[0] == l.upper;
    } else {
      assert dirs == [l.upper] + l.lowers;
      LeftmostBehind(contents, l.upper, l.lowers, name, found);
    }
  }

  lemma LeftmostBehind<T>(contents: Contents<T>, first: string, rest: seq<string>, name: string, found: Option<T>)
    requires !Holds(contents, first, name) && LeftmostWins(contents, rest, name, found)
    ensures LeftmostWins(contents, [first] + rest, name, found)
  {
    var dirs := [first] + rest;
    if found.Some? {
      var i :| && 0 <= i < |rest| && Holds(contents, rest[i], name) && contents[rest[i]][name] == found.value
               && forall j | 0 <= j < i :: !Holds(contents, rest[j], name);
      forall j | 0 <= j < i + 1 ensures !Holds(contents, dirs[j], name) {
        assert j > 0 ==> dirs[j] == rest[j - 1];
      }
      assert dirs[i + 1] == rest[i];
    }
  }

  /** single: the one directory to bind-mount, or "" if a real overlay is needed. */
  function Single(l: Layout): string {
    if l.lowers == [] then l.upper
    else if |l.lowers| == 1 && l.upper == "" then l.lowers[0]
    else ""
  }

  /** A bind is chosen exactly for one source, and shows what the overlay would have shown. */
  lemma SingleIffOneSource<T>(contents: Contents<T>, sources: seq<Source>, l: Layout, name: string)
    requires Absolute(sources) && sources != [] && Stack(l) == BranchDirs(sources)
    ensures Single(l) != "" <==> |sources| == 1
    ensures |sources| == 1 ==>
              && Single(l) == BranchDir(sources[0])
              && Lookup(contents, l, name) == if Holds(contents, Single(l), name) then Some(contents[Single(l)][name])
                  else None
  {
    assert sources[0] in sources && Stack(l)[0] == BranchDir(sources[0]);
    if l.upper == "" {
      assert Stack(l) == l.lowers;
      assert |l.lowers| == 1 ==> LookupLower(contents, l.lowers[1..], name) == None;
    } else {
      assert |Stack(l)| == 1 + |l.lowers|;
    }
  }

  // ---- fsconfig ----

  datatype Call = SetString(key: string, val: string) | SetFlag(key: string)

  function LowerCalls(lowers: seq<string>): (cs: seq<Call>)
    ensures |cs| == |lowers| && forall i | 0 <= i < |cs| :: cs[i] == SetString("lowerdir+", lowers[i])
  {
    seq(|lowers|, i requires 0 <= i < |lowers| => SetString("lowerdir+", lowers[i]))
  }

  predicate IsFlag(schema: Schema, k: string) {
    k !in schema || schema[k].kind.FlagKind?
  }

  function OptionCall(schema: Schema, k: string, v: string): Call {
    if IsFlag(schema, k) then SetFlag(k) else SetString(k, v)
  }

  function OptionCalls(schema: Schema, ks: seq<string>, options: map<string, string>): (cs: seq<Call>)
    requires forall k | k in ks :: k in options
    ensures |cs| == |ks| && forall i | 0 <= i < |cs| :: cs[i] == OptionCall(schema, ks[i], options[ks[i]])
  {
    seq(|ks|, i requires 0 <= i < |ks| => OptionCall(schema, ks[i], options[ks[i]]))
  }

  lemma OptionCallsNext(schema: Schema, ks: seq<string>, options: map<string, string>, i: nat)
    requires i < |ks| && forall k | k in ks :: k in options
    ensures (forall k | k in ks[..i] :: k in options) && (forall k | k in ks[..i + 1] :: k in options)
            && ks[i] in options
    ensures OptionCalls(schema, ks[..i + 1], options)
         == OptionCalls(schema, ks[..i], options) + [OptionCall(schema, ks[i], options[ks[i]])]
  {
    forall k | k in ks[..i + 1] ensures k in ks {}
    assert ks[i] in ks;
  }

  function UpperCalls(l: Layout): seq<Call> {
    if l.upper != "" then [SetString("upperdir", l.upper), SetString("workdir", l.work)] else []
  }

  /** What a layout tells the kernel: the layers in order, topmost first, the writable layer,
      and every option once. */
  ghost function Told(l: Layout, schema: Schema): seq<Call> {
    LowerCalls(l.lowers) + UpperCalls(l) + OptionCalls(schema, SortedKeys(l.options.Keys), l.options)
  }

  /** mountFsconfig. */
  method MountFsconfig(l: Layout, schema: Schema) returns (calls: seq<Call>)
    ensures calls == Told(l, schema)
  {
    calls := AddLowers(l.lowers);
    if l.upper != "" {
      calls := calls + [SetString("upperdir", l.upper), SetString("workdir", l.work)];
    }
    assert calls == LowerCalls(l.lowers) + UpperCalls(l);
    var options := SetOptions(l.options, schema);
    calls := calls + options;
  }

  method AddLowers(lowers: seq<string>) returns (calls: seq<Call>)
    ensures calls == LowerCalls(lowers)
  {
    calls := [];
    for i := 0 to |lowers|
      invariant calls == LowerCalls(lowers[..i])
    {
      calls := calls + [SetString("lowerdir+", lowers[i])];
    }
    assert lowers[..|lowers|] == lowers;
  }

  /** Its loop over the options. */
  method SetOptions(options: map<string, string>, schema: Schema) returns (calls: seq<Call>)
    ensures calls == OptionCalls(schema, SortedKeys(options.Keys), options)
  {
    calls := [];
    var ks := SortKeys(options);
    for i := 0 to |ks|
      invariant calls == OptionCalls(schema, ks[..i], options)
    {
      OptionCallsNext(schema, ks, options, i);
      calls := calls + [if IsFlag(schema, ks[i]) then SetFlag(ks[i]) else SetString(ks[i], options[ks[i]])];
    }
    assert ks[..|ks|] == ks;
  }
}
