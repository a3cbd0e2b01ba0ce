/** The mergerfs command line and the record kept for it (pkg/backend/mergerfs/argv.go,
    pkg/backend/mergerfs/state.go). The decoders read the command line the way mergerfs
    does and stand for what the daemon will serve. */
module Argv {
  import opened Text
  import opened Escapes
  import opened Ordering
  import opened MountSpecs

  datatype Error = NoSources | UnknownMode(mode: string) | SeparatorIn(path: string)

  datatype Result<T> = Ok(value: T) | Err(error: Error)

  datatype Bind = Bind(host: string, sandbox: string, readOnly: bool)

  /** volumeState. */
  datatype Record = Record(
    volumeID: string, target: string, argv: seq<string>, branches: seq<Bind>, sharedFrom: string, readOnly: bool)

  const SANDBOX_TARGET := "/union"
  const SANDBOX_BRANCH_DIR := "/branch"

  // ---- branches ----

  predicate KnownMode(mode: string) {
    mode == RW || mode == RO || mode == NC
  }

  predicate Plain(s: Source) {
    KnownMode(s.mode) && ':' !in s.path && ',' !in s.path
  }

  function Entry(s: Source): string {
    s.path + ['='] + s.mode
  }

  function Entries(sources: seq<Source>): (es: seq<string>)
    ensures |es| == |sources| && (forall i | 0 <= i < |es| :: es[i] == Entry(sources[i]))
  {
    seq(|sources|, i requires 0 <= i < |sources| => Entry(sources[i]))
  }

  method BuildBranches(sources: seq<Source>) returns (r: Result<string>)
    ensures r.Ok? <==> sources != [] && forall s | s in sources :: Plain(s)
    ensures r.Ok? ==> r.value == Join(Entries(sources), ':')
    ensures r.Err? && r.error.NoSources? ==> sources == []
    ensures r.Err? && !r.error.NoSources? ==>
              exists i :: 0 <= i < |sources| && (forall j | 0 <= j < i :: Plain(sources[j])) && !Plain(sources[i])
                && r.error == if !KnownMode(sources[i].mode) then UnknownMode(sources[i].mode)
                    else SeparatorIn(sources[i].path)
  {
    if sources == [] {
      return Err(NoSources);
    }
    var branches: seq<string> := [];
    for i := 0 to |sources|
      invariant branches == Entries(sources[..i])
      invariant forall j | 0 <= j < i :: Plain(sources[j])
    {
      var s := sources[i];
      assert s in sources;
      if !(s.mode == RW || s.mode == RO || s.mode == NC) {
        return Err(UnknownMode(s.mode));
      }
      if ':' in s.path || ',' in s.path {
        return Err(SeparatorIn(s.path));
      }
      branches := branches + [s.path + "=" + s.mode];
      assert s.path + "=" + s.mode == Entry(s);
    }
    assert sources[..|sources|] == sources;
    return Ok(Join(branches, ':'));
  }

  /** Everything before and after the last c in s. */
  function CutLast(s: string, c: char): (string, string) {
    if s == "" then ("", "")
    else if s[|s| - 1] == c then (s[..|s| - 1], "")
    else var (a, b) := CutLast(s[..|s| - 1], c); (a, b + [s[|s| - 1]])
  }

  lemma {:induction false} CutLastAt(a: string, c: char, b: string)
    requires c !in b
    ensures CutLast(a + [c] + b, c) == (a, b)
    decreases |b|
  {
    var s := a + [c] + b;
    if b == "" {
      assert s[..|s| - 1] == a;
    } else {
      var front, last := b[..|b| - 1], b[|b| - 1];
      assert s[..|s| - 1] == a + [c] + front && s[|s| - 1] == last && last in b;
      CutLastAt(a, c, front);
      assert front + [last] == b;
    }
  }

  /** How mergerfs reads its branch argument. */
  function DecodeBranches(arg: string): seq<Source> {
    var entries := Split(arg, ':');
    seq(|entries|, i requires 0 <= i < |entries| => var (path, mode) := CutLast(entries[i], '='); Source(path, mode))
  }

  /** The branch argument gives back the sources, in order, with their modes. */
  lemma BranchesDecode(sources: seq<Source>)
    requires sources != [] && forall s | s in sources :: Plain(s)
    ensures DecodeBranches(Join(Entries(sources), ':')) == sources
  {
    var es := Entries(sources);
    forall e | e in es ensures ':' !in e {
      var i :| 0 <= i < |es| && es[i] == e;
      assert Plain(sources[i]);
    }
    SplitJoin(es, ':');
    forall i | 0 <= i < |es|
      ensures var (path, mode) := CutLast(es[i], '='); Source(path, mode) == sources[i]
    {
      assert Plain(sources[i]);
      CutLastAt(sources[i].path, '=', sources[i].mode);
    }
  }

  // ---- options ----

  function Assign(k: string, v: string): string {
    k + ['='] + v
  }

  function Assigns(ks: seq<string>, options: map<string, string>): (ws: seq<string>)
    requires forall k | k in ks :: k in options
    ensures |ws| == |ks| && (forall i | 0 <= i < |ks| :: ws[i] == Assign(ks[i], options[ks[i]]))
  {
    seq(|ks|, i requires 0 <= i < |ks| => Assign(ks[i], options[ks[i]]))
  }

  lemma AssignsNext(ks: seq<string>, options: map<string, string>, i: nat)
    requires i < |ks| && forall k | k in ks :: k in options
    ensures (forall k | k in ks[..i] :: k in options) && (forall k | k in ks[..i + 1] :: k in options)
            && ks[i] in options
    ensures Assigns(ks[..i + 1], options) == Assigns(ks[..i], options) + [ks[i] + "=" + options[ks[i]]]
  {
    forall k | k in ks[..i + 1] ensures k in ks {}
    assert ks[i] in ks;
  }

  ghost function OptionWords(spec: MountSpec): seq<string> {
    HeadWords(spec.readOnly) + Assigns(SortedKeys(spec.options.Keys), spec.options)
  }

  method BuildOptions(spec: MountSpec) returns (s: string)
    ensures s == Join(OptionWords(spec), ',')
  {
    var opts := ["allow_other"];
    if spec.readOnly {
      opts := opts + ["ro"];
    }
    ghost var head := opts;
    var keys := SortKeys(spec.options);
    for i := 0 to |keys|
      invariant opts == head + Assigns(keys[..i], spec.options)
    {
      AssignsNext(keys, spec.options, i);
      opts := opts + [keys[i] + "=" + spec.options[keys[i]]];
    }
    assert keys[..|keys|] == keys;
    s := Join(opts, ',');
  }

  datatype Word = Flag(name: string) | Setting(key: string, val: string)

  /** Everything before and after the first c in s. */
  function CutFirst(s: string, c: char): (string, string)
    requires c in s
  {
    if s[0] == c then ("", s[1..])
    else var (a, b) := CutFirst(s[1..], c); ([s[0]] + a, b)
  }

  lemma {:induction false} CutFirstAt(a: string, c: char, b: string)
    requires c !in a
    ensures CutFirst(a + [c] + b, c) == (a, b)
  {
    var s := a + [c] + b;
    if a == "" {
      assert s[1..] == b;
    } else {
      assert s[1..] == a[1..] + [c] + b && s[0] == a[0] && a[0] in a;
      CutFirstAt(a[1..], c, b);
      assert [a[0]] + a[1..] == a;
    }
  }

  function DecodeWord(w: string): Word {
    if '=' in w then var (k, v) := CutFirst(w, '='); Setting(k, v) else Flag(w)
  }

  predicate IsOctal(c: char) {
    '0' <= c <= '7'
  }

  function OctalValue(a: char, b: char, c: char): nat
    requires IsOctal(a) && IsOctal(b) && IsOctal(c)
  {
    64 * ((a - '0') as nat) + 8 * ((b - '0') as nat) + (c - '0') as nat
  }

  /** A backslash stands for the octal code behind it, or for the next character. */
  function WithoutEscapes(s: string): string {
    if s == "" then ""
    else if s[0] == '\\' && |s| > 3 && '0' <= s[1] <= '3' && IsOctal(s[2]) && IsOctal(s[3]) then
      [OctalValue(s[1], s[2], s[3]) as char] + WithoutEscapes(s[4..])
    else if s[0] == '\\' && |s| > 1 then [s[1]] + WithoutEscapes(s[2..])
    else [s[0]] + WithoutEscapes(s[1..])
  }

  lemma {:induction false} NothingEscaped(s: string)
    requires '\\' !in s
    ensures WithoutEscapes(s) == s
  {
    if s != "" {
      assert s[0] in s;
      NothingEscaped(s[1..]);
      assert [s[0]] + s[1..] == s;
    }
  }

  /** How FUSE reads the value of -o: split at commas that no backslash protects, and then
      without the escapes. */
  function DecodeOptions(arg: string): seq<Word> {
    DecodeEscaped(SplitPlain(arg, ','))
  }

  function DecodeEscaped(words: seq<string>): (r: seq<Word>)
    ensures |r| == |words| && (forall i | 0 <= i < |words| :: r[i] == DecodeWord(WithoutEscapes(words[i])))
  {
    seq(|words|, i requires 0 <= i < |words| => DecodeWord(WithoutEscapes(words[i])))
  }

  function DecodeWords(words: seq<string>): (r: seq<Word>)
    ensures |r| == |words| && (forall i | 0 <= i < |words| :: r[i] == DecodeWord(words[i]))
  {
    seq(|words|, i requires 0 <= i < |words| => DecodeWord(words[i]))
  }

  /** Free of the characters that end or escape a field of an option string. */
  predicate Harmless(s: string) {
    ',' !in s && '\\' !in s
  }

  predicate PlainOptions(options: map<string, string>) {
    forall k | k in options :: '=' !in k && Harmless(k) && Harmless(options[k])
  }

  ghost function Settings(options: map<string, string>): seq<Word> {
    var ks := SortedKeys(options.Keys);
    seq(|ks|, i requires 0 <= i < |ks| => assert ks[i] in ks; Setting(ks[i], options[ks[i]]))
  }

  /** The -o value gives back allow_other, ro exactly for a read-only volume, and then
      every option once, in key order. */
  lemma OptionsDecode(spec: MountSpec)
    requires PlainOptions(spec.options)
    ensures DecodeOptions(Join(OptionWords(spec), ','))
         == [Flag("allow_other")] + (if spec.readOnly then [Flag("ro")] else []) + Settings(spec.options)
  {
    var assigns := Assigns(SortedKeys(spec.options.Keys), spec.options);
    var head := HeadWords(spec.readOnly);
    assert OptionWords(spec) == head + assigns;
    AssignsDecode(spec.options);
    HeadDecodes(spec.readOnly);
    DecodeJoined(head, assigns);
  }

  lemma DecodeJoined(head: seq<string>, rest: seq<string>)
    requires head != [] && (forall w | w in head :: Harmless(w)) && (forall w | w in rest :: Harmless(w))
    ensures DecodeOptions(Join(head + rest, ',')) == DecodeWords(head) + DecodeWords(rest)
  {
    var words := head + rest;
    forall w | w in words ensures Sealed(w, ',') && WithoutEscapes(w) == w {
      CleanIsSealed(w, ',');
      NothingEscaped(w);
    }
    SplitPlainJoin(words, ',');
    forall i | 0 <= i < |words| ensures DecodeEscaped(words)[i] == DecodeWord(words[i]) {
      assert words[i] in words;
    }
    assert DecodeEscaped(words) == DecodeWords(head) + DecodeWords(rest);
  }

  function HeadWords(readOnly: bool): seq<string> {
    ["allow_other"] + (if readOnly then ["ro"] else [])
  }

  lemma HeadDecodes(readOnly: bool)
    ensures forall w | w in HeadWords(readOnly) :: Harmless(w)
    ensures DecodeWords(HeadWords(readOnly)) == [Flag("allow_other")] + (if readOnly then [Flag("ro")] else [])
  {
    assert Harmless("allow_other") && '=' !in "allow_other" && Harmless("ro") && '=' !in "ro";
  }

  lemma AssignsDecode(options: map<string, string>)
    requires PlainOptions(options)
    ensures var ws := Assigns(SortedKeys(options.Keys), options);
            && DecodeWords(ws) == Settings(options)
            && (forall w | w in ws :: Harmless(w))
  {
    var ks := SortedKeys(options.Keys);
    forall i | 0 <= i < |ks|
      ensures var w := Assign(ks[i], options[ks[i]]); Harmless(w) && DecodeWord(w) == Setting(ks[i], options[ks[i]])
    {
      assert ks[i] in ks;
      CutFirstAt(ks[i], '=', options[ks[i]]);
    }
  }

  /** The settings are the option map itself. */
  lemma SettingsAreTheMap(options: map<string, string>, k: string, v: string)
    ensures Setting(k, v) in Settings(options) <==> k in options && options[k] == v
  {
    var ks := SortedKeys(options.Keys);
    if k in options && options[k] == v {
      var i :| 0 <= i < |ks| && ks[i] == k;
      assert Settings(options)[i] == Setting(k, v);
    }
    forall i | 0 <= i < |ks| ensures ks[i] in options {
      assert ks[i] in ks;
    }
  }

  // ---- the sandbox ----

  const DIGITS := ['0', '1', '2', '3', '4', '5', '6', '7', '8', '9']

  function Decimal(n: nat): (s: string)
    ensures s != "" && (forall c | c in s :: c in DIGITS)
  {
    if n < 10 then [DIGITS[n]] else Decimal(n / 10) + [DIGITS[n % 10]]
  }

  lemma {:induction false} DecimalInjective(m: nat, n: nat)
    requires Decimal(m) == Decimal(n)
    ensures m == n
  {
    var a, b := Decimal(m), Decimal(n);
    assert a[|a| - 1] == DIGITS[m % 10] && b[|b| - 1] == DIGITS[n % 10];
    assert m % 10 == n % 10;
    if m >= 10 && n >= 10 {
      assert a[..|a| - 1] == Decimal(m / 10) && b[..|b| - 1] == Decimal(n / 10);
      DecimalInjective(m / 10, n / 10);
    }
  }

  function BranchPath(i: nat): string {
    SANDBOX_BRANCH_DIR + "/" + Decimal(i)
  }

  lemma BranchPathsDiffer(i: nat, j: nat)
    requires BranchPath(i) == BranchPath(j)
    ensures i == j
  {
    var d := SANDBOX_BRANCH_DIR + "/";
    assert Decimal(i) == BranchPath(i)[|d|..] && Decimal(j) == BranchPath(j)[|d|..];
    DecimalInjective(i, j);
  }

  function SandboxSource(i: nat, s: Source): Source {
    Source(BranchPath(i), s.mode)
  }

  function SandboxSources(spec: MountSpec): (sources: seq<Source>)
    ensures |sources| == |spec.sources|
    ensures forall i | 0 <= i < |sources| :: sources[i] == SandboxSource(i, spec.sources[i])
  {
    seq(|spec.sources|, i requires 0 <= i < |spec.sources| => SandboxSource(i, spec.sources[i]))
  }

  /** A branch is bound read-only exactly when the volume is or its own mode says so. */
  function SandboxBind(spec: MountSpec, i: nat): Bind
    requires i < |spec.sources|
  {
    Bind(spec.sources[i].path, BranchPath(i), spec.readOnly || spec.sources[i].mode == RO)
  }

  method Sandboxed(spec: MountSpec) returns (inner: MountSpec, binds: seq<Bind>)
    ensures |inner.sources| == |binds| == |spec.sources|
    ensures forall i | 0 <= i < |binds| ::
              inner.sources[i] == SandboxSource(i, spec.sources[i]) && binds[i] == SandboxBind(spec, i)
    ensures inner == spec.(sources := inner.sources, target := SANDBOX_TARGET)
  {
    var sources: seq<Source> := [];
    binds := [];
    for i := 0 to |spec.sources|
      invariant |sources| == |binds| == i
      invariant forall j | 0 <= j < i ::
                  sources[j] == SandboxSource(j, spec.sources[j]) && binds[j] == SandboxBind(spec, j)
    {
      var s := spec.sources[i];
      var dst := SANDBOX_BRANCH_DIR + "/" + Decimal(i);
      sources := sources + [Source(dst, s.mode)];
      binds := binds + [Bind(s.path, dst, spec.readOnly || s.mode == RO)];
    }
    inner := spec.(sources := sources, target := SANDBOX_TARGET);
  }

  /** The branch and option arguments of a command line, as the daemon reads them. */
  ghost predicate Serves(argv: seq<string>, branches: seq<Source>, options: map<string, string>, readOnly: bool,
                         target: string) {
    && |argv| == 5 && argv[0] == "-f" && argv[1] == "-o" && argv[4] == target
    && DecodeBranches(argv[3]) == branches
    && DecodeOptions(argv[2]) == [Flag("allow_other")] + (if readOnly then [Flag("ro")] else []) + Settings(options)
  }

  method BuildArgv(spec: MountSpec) returns (r: Result<seq<string>>)
    ensures r.Ok? <==> spec.sources != [] && forall s | s in spec.sources :: Plain(s)
    ensures r.Ok? && PlainOptions(spec.options) ==>
              Serves(r.value, spec.sources, spec.options, spec.readOnly, spec.target)
  {
    var branches := BuildBranches(spec.sources);
    if branches.Err? {
      return Err(branches.error);
    }
    var options := BuildOptions(spec);
    var argv := ["-f", "-o", options, branches.value, spec.target];
    if PlainOptions(spec.options) {
      ArgvServes(spec, argv);
    }
    return Ok(argv);
  }

  lemma ArgvServes(spec: MountSpec, argv: seq<string>)
    requires spec.sources != [] && (forall s | s in spec.sources :: Plain(s)) && PlainOptions(spec.options)
    requires argv == ["-f", "-o", Join(OptionWords(spec), ','), Join(Entries(spec.sources), ':'), spec.target]
    ensures Serves(argv, spec.sources, spec.options, spec.readOnly, spec.target)
  {
    OptionsDecode(spec);
    BranchesDecode(spec.sources);
  }

  /** What the record of a mounted union must say about the request. In the sandbox,
      branch i of the command line is the bind of source i. */
  ghost predicate Describes(st: Record, spec: MountSpec, sandbox: bool) {
    && st.volumeID == spec.volumeID && st.target == spec.target && st.sharedFrom == ""
    && (sandbox ==>
          && |st.branches| == |spec.sources|
          && (forall i | 0 <= i < |st.branches| :: st.branches[i] == SandboxBind(spec, i))
          && Serves(st.argv, SandboxSources(spec),
                    spec.options, spec.readOnly, SANDBOX_TARGET))
    && (!sandbox ==> st.branches == [] && Serves(st.argv, spec.sources, spec.options, spec.readOnly, spec.target))
  }

  /** The first half of mountUnion: what is saved before the daemon starts. A sandboxed
      union is refused only for what its modes say, since its paths never reach the
      command line. */
  method PlanRecord(spec: MountSpec, sandbox: bool) returns (r: Result<Record>)
    ensures r.Ok? <==> && spec.sources != []
                       && (forall s | s in spec.sources :: if sandbox then KnownMode(s.mode) else Plain(s))
    ensures r.Ok? ==> r.value.volumeID == spec.volumeID && r.value.target == spec.target && r.value.sharedFrom == ""
    ensures r.Ok? && PlainOptions(spec.options) ==> Describes(r.value, spec, sandbox)
  {
    var st := Record(spec.volumeID, spec.target, [], [], "", false);
    var inner := spec;
    if sandbox {
      var binds: seq<Bind>;
      inner, binds := Sandboxed(spec);
      st := st.(branches := binds);
      SandboxPathsArePlain(spec, inner);
    }
    var argv := BuildArgv(inner);
    if argv.Err? {
      return Err(argv.error);
    }
    st := st.(argv := argv.value);
    if sandbox {
      assert inner.sources == SandboxSources(spec);
    }
    return Ok(st);
  }

  lemma SandboxPathsArePlain(spec: MountSpec, inner: MountSpec)
    requires |inner.sources| == |spec.sources|
    requires forall i | 0 <= i < |spec.sources| :: inner.sources[i] == SandboxSource(i, spec.sources[i])
    ensures (forall s | s in inner.sources :: Plain(s)) <==> (forall s | s in spec.sources :: KnownMode(s.mode))
  {
    forall i | 0 <= i < |spec.sources| ensures Plain(inner.sources[i]) <==> KnownMode(spec.sources[i].mode) {
      var path := BranchPath(i);
      assert path == SANDBOX_BRANCH_DIR + "/" + Decimal(i);
      assert ':' !in Decimal(i) && ',' !in Decimal(i);
      assert ':' !in SANDBOX_BRANCH_DIR && ',' !in SANDBOX_BRANCH_DIR;
    }
  }
}
