/** Parsing the attributes of a union volume (pkg/driver/params.go). */
module Params {
  import opened Text
  import opened Optional
  import opened Argv

  datatype SourceVolume = SourceVolume(name: string, mode: string)

  /** What the configured backend and the flags allow. */
  datatype Grammar = Grammar(maxSources: nat, modes: seq<string>, defaultMode: string, maxWritable: nat)

  datatype Fault =
    | SourcesRequired
    | TooManySources(n: nat)
    | BadName(name: string)
    | Duplicate(name: string)
    | BadMode(name: string, mode: string)
    | TooManyWritable
    | BadOption(pair: string)
    | UnknownKey(key: string)

  datatype Parsed<T> = Good(value: T) | Bad(fault: Fault)

  // ---- source volumes ----

  predicate LabelChar(c: char) {
    'a' <= c <= 'z' || '0' <= c <= '9'
  }

  /** A DNS-1123 label, as the regular expression of the driver spells it. */
  predicate ValidName(s: string) {
    && s != "" && LabelChar(s[0]) && LabelChar(s[|s| - 1])
    && forall c | c in s :: LabelChar(c) || c == '-'
  }

  /** One entry: the mode follows the first "=", or is the default. */
  function Entry(g: Grammar, entry: string): SourceVolume {
    if '=' in entry then var (name, mode) := CutFirst(entry, '='); SourceVolume(name, mode)
    else SourceVolume(entry, g.defaultMode)
  }

  function Listed(g: Grammar, entries: seq<string>): (svs: seq<SourceVolume>)
    ensures |svs| == |entries| && (forall i | 0 <= i < |svs| :: svs[i] == Entry(g, entries[i]))
  {
    seq(|entries|, i requires 0 <= i < |entries| => Entry(g, entries[i]))
  }

  function Writable(svs: seq<SourceVolume>): nat {
    if svs == [] then 0 else Writable(svs[..|svs| - 1]) + (if svs[|svs| - 1].mode == "RW" then 1 else 0)
  }

  /** Every name valid and different, every mode known, few enough of them writable. */
  ghost predicate WellDeclared(g: Grammar, svs: seq<SourceVolume>) {
    && (forall sv | sv in svs :: ValidName(sv.name) && sv.mode in g.modes)
    && (forall i, j | 0 <= i < j < |svs| :: svs[i].name != svs[j].name)
    && (g.maxWritable > 0 ==> Writable(svs) <= g.maxWritable)
  }

  ghost predicate Named(svs: seq<SourceVolume>, name: string) {
    exists j :: 0 <= j < |svs| && svs[j].name == name
  }

  /** What is wrong with sv after the well declared list svs. */
  ghost function FaultOf(g: Grammar, svs: seq<SourceVolume>, sv: SourceVolume): Fault {
    if !ValidName(sv.name) then BadName(sv.name)
    else if Named(svs, sv.name) then Duplicate(sv.name)
    else if sv.mode !in g.modes then BadMode(sv.name, sv.mode)
    else TooManyWritable
  }

  /** The list is well declared up to entry i, and fault is what entry i does to it. */
  ghost predicate SpoiledAt(g: Grammar, svs: seq<SourceVolume>, i: nat, fault: Fault)
    requires i < |svs|
  {
    WellDeclared(g, svs[..i]) && !WellDeclared(g, svs[..i + 1]) && fault == FaultOf(g, svs[..i], svs[i])
  }

  ghost function Sources(g: Grammar, raw: string): Option<seq<SourceVolume>> {
    var entries := Split(raw, ',');
    if raw != "" && |entries| <= g.maxSources && WellDeclared(g, Listed(g, entries))
    then Some(Listed(g, entries))
    else None
  }

  /** parseSourceVolumes: what is accepted is exactly the well declared lists, in the order
      written; otherwise the fault is that of the first entry that spoils the list. */
  method ParseSourceVolumes(g: Grammar, raw: string) returns (r: Parsed<seq<SourceVolume>>)
    ensures Sources(g, raw) == if r.Good? then Some(r.value) else None
    ensures raw == "" <==> r == Bad(SourcesRequired)
    ensures r.Bad? && !r.fault.SourcesRequired? && !r.fault.TooManySources? ==>
              exists i | 0 <= i < |Split(raw, ',')| :: SpoiledAt(g, Listed(g, Split(raw, ',')), i, r.fault)
  {
    if raw == "" {
      return Bad(SourcesRequired);
    }
    var entries := Split(raw, ',');
    if |entries| > g.maxSources {
      return Bad(TooManySources(|entries|));
    }
    ghost var all := Listed(g, entries);
    var seen: set<string> := {};
    var sources: seq<SourceVolume> := [];
    var writable := 0;
    for i := 0 to |entries|
      invariant sources == all[..i] && WellDeclared(g, sources) && writable == Writable(sources)
      invariant forall name :: name in seen <==> Named(sources, name)
    {
      var sv := Entry(g, entries[i]);
      assert all[..i + 1] == sources + [sv];
      var fault := CheckEntry(g, sources, seen, writable, sv);
      if fault.Some? {
        NotPrefix(g, all, i + 1);
        assert SpoiledAt(g, all, i, fault.value);
        return Bad(fault.value);
      }
      Appended(sources, sv);
      seen := seen + {sv.name};
      writable := writable + if sv.mode == "RW" then 1 else 0;
      sources := sources + [sv];
    }
    assert all[..|entries|] == all;
    return Good(sources);
  }

  /** The checks of one turn of that loop. */
  method CheckEntry(g: Grammar, ghost svs: seq<SourceVolume>, seen: set<string>, writable: nat,
                    sv: SourceVolume) returns (fault: Option<Fault>)
    requires WellDeclared(g, svs) && writable == Writable(svs) && (forall name :: name in seen <==> Named(svs, name))
    ensures fault.None? <==> WellDeclared(g, svs + [sv])
    ensures fault.Some? ==>
            && fault.value == FaultOf(g, svs, sv) && !fault.value.SourcesRequired?
            && !fault.value.TooManySources?
  {
    ghost var longer := svs + [sv];
    assert sv in longer && longer[|svs|] == sv && longer[..|svs|] == svs;
    Appended(svs, sv);
    if !ValidName(sv.name) {
      return Some(BadName(sv.name));
    }
    if sv.name in seen {
      ghost var j :| 0 <= j < |svs| && svs[j].name == sv.name;
      assert longer[j].name == longer[|svs|].name;
      return Some(Duplicate(sv.name));
    }
    if sv.mode !in g.modes {
      return Some(BadMode(sv.name, sv.mode));
    }
    if sv.mode == "RW" && g.maxWritable > 0 && writable + 1 > g.maxWritable {
      return Some(TooManyWritable);
    }
    forall i, j | 0 <= i < j < |longer| ensures longer[i].name != longer[j].name {
      assert i < |svs| && longer[i] == svs[i];
      assert j < |svs| ==> longer[j] == svs[j];
    }
    return None;
  }

  lemma Appended(svs: seq<SourceVolume>, sv: SourceVolume)
    ensures Writable(svs + [sv]) == Writable(svs) + if sv.mode == "RW" then 1 else 0
    ensures forall name :: Named(svs + [sv], name) <==> Named(svs, name) || name == sv.name
  {
    var longer := svs + [sv];
    assert longer[..|svs|] == svs && longer[|svs|] == sv;
    forall name ensures Named(longer, name) <==> Named(svs, name) || name == sv.name {
      if Named(svs, name) {
        var j :| 0 <= j < |svs| && svs[j].name == name;
        assert longer[j].name == name;
      }
    }
  }

  lemma {:induction false} WritableGrows(svs: seq<SourceVolume>, k: nat)
    requires k <= |svs|
    ensures Writable(svs[..k]) <= Writable(svs)
    decreases |svs| - k
  {
    if k < |svs| {
      WritableGrows(svs, k + 1);
      assert svs[..k + 1][..k] == svs[..k];
    } else {
      assert svs[..k] == svs;
    }
  }

  lemma NotPrefix(g: Grammar, svs: seq<SourceVolume>, k: nat)
    requires k <= |svs| && !WellDeclared(g, svs[..k])
    ensures !WellDeclared(g, svs)
  {
    WritableGrows(svs, k);
    forall sv | sv in svs[..k] ensures sv in svs {}
  }

  /** Writing a list out and parsing it gives the list. */
  lemma SourcesRoundTrip(g: Grammar, svs: seq<SourceVolume>)
    requires svs != [] && |svs| <= g.maxSources && WellDeclared(g, svs)
    requires forall m | m in g.modes :: ',' !in m
    ensures Sources(g, WriteSources(svs)) == Some(svs)
  {
    var es := seq(|svs|, i requires 0 <= i < |svs| => Assign(svs[i].name, svs[i].mode));
    forall i | 0 <= i < |svs| ensures ',' !in es[i] && Entry(g, es[i]) == svs[i] {
      assert svs[i] in svs;
      CutFirstAt(svs[i].name, '=', svs[i].mode);
    }
    SplitJoin(es, ',');
    assert Listed(g, es) == svs;
    assert '=' in es[0];
    assert WriteSources(svs) == "" ==> Split("", ',') == es;
  }

  function WriteSources(svs: seq<SourceVolume>): string {
    Join(seq(|svs|, i requires 0 <= i < |svs| => Assign(svs[i].name, svs[i].mode)), ',')
  }

  /** A bare name and the name with the default mode written out are the same entry. */
  lemma DefaultModeIsImplied(g: Grammar, name: string)
    requires ValidName(name)
    ensures Entry(g, name) == Entry(g, Assign(name, g.defaultMode)) == SourceVolume(name, g.defaultMode)
  {
    CutFirstAt(name, '=', g.defaultMode);
  }

  // ---- options ----

  /** Key and value of a pair, at its first "=". */
  function Cut(pair: string): (string, string) {
    if '=' in pair then CutFirst(pair, '=') else ("", pair)
  }

  predicate ValidPair(pair: string) {
    '=' in pair && Cut(pair).0 != ""
  }

  /** The map that a list of pairs builds up; a later pair wins. */
  function Pairs(pairs: seq<string>): map<string, string> {
    if pairs == [] then map[]
    else
      var (k, v) := Cut(pairs[|pairs| - 1]);
      Pairs(pairs[..|pairs| - 1])[k := v]
  }

  ghost function Options(raw: string): Option<map<string, string>> {
    if raw == "" then Some(map[])
    else if forall p | p in Split(raw, ',') :: ValidPair(p) then Some(Pairs(Split(raw, ',')))
    else None
  }

  method ParseOptions(raw: string) returns (r: Parsed<map<string, string>>)
    ensures Options(raw) == if r.Good? then Some(r.value) else None
    ensures r.Bad? ==> r.fault.BadOption? && r.fault.pair in Split(raw, ',') && !ValidPair(r.fault.pair)
  {
    var options: map<string, string> := map[];
    if raw == "" {
      return Good(options);
    }
    var pairs := Split(raw, ',');
    for i := 0 to |pairs|
      invariant forall p | p in pairs[..i] :: ValidPair(p)
      invariant options == Pairs(pairs[..i])
    {
      assert pairs[i] in pairs;
      if '=' !in pairs[i] || CutFirst(pairs[i], '=').0 == "" {
        return Bad(BadOption(pairs[i]));
      }
      var (k, v) := CutFirst(pairs[i], '=');
      options := options[k := v];
      assert pairs[..i + 1][..i] == pairs[..i] && pairs[..i + 1][i] == pairs[i];
    }
    assert pairs[..|pairs|] == pairs;
    return Good(options);
  }

  ghost predicate DistinctKeys(pairs: seq<string>) {
    forall i, j | 0 <= i < j < |pairs| :: Cut(pairs[i]).0 != Cut(pairs[j]).0
  }

  lemma {:induction false} PairsAreTheMap(pairs: seq<string>)
    requires DistinctKeys(pairs)
    ensures forall i | 0 <= i < |pairs| ::
              && Cut(pairs[i]).0 in Pairs(pairs)
              && Pairs(pairs)[Cut(pairs[i]).0] == Cut(pairs[i]).1
    ensures forall k | k in Pairs(pairs) :: exists i :: 0 <= i < |pairs| && Cut(pairs[i]) == (k, Pairs(pairs)[k])
  {
    if pairs != [] {
      var front, n := pairs[..|pairs| - 1], |pairs| - 1;
      PairsAreTheMap(front);
      forall i | 0 <= i < n ensures Cut(pairs[i]).0 in Pairs(pairs)
          && Pairs(pairs)[Cut(pairs[i]).0] == Cut(pairs[i]).1 {
        assert front[i] == pairs[i];
      }
      forall k | k in Pairs(pairs) ensures exists i :: 0 <= i < |pairs| && Cut(pairs[i]) == (k, Pairs(pairs)[k]) {
        if k != Cut(pairs[n]).0 {
          assert k in Pairs(front) && Pairs(front)[k] == Pairs(pairs)[k];
          var i :| 0 <= i < |front| && Cut(front[i]) == (k, Pairs(front)[k]);
          assert Cut(pairs[i]) == (k, Pairs(pairs)[k]);
        } else {
          assert Cut(pairs[n]) == (k, Pairs(pairs)[k]);
        }
      }
    }
  }

  lemma PairsWithin(a: seq<string>, b: seq<string>, k: string)
    requires DistinctKeys(a) && DistinctKeys(b) && (forall p | p in a :: p in b) && k in Pairs(a)
    ensures k in Pairs(b) && Pairs(b)[k] == Pairs(a)[k]
  {
    PairsAreTheMap(a);
    PairsAreTheMap(b);
    var i :| 0 <= i < |a| && Cut(a[i]) == (k, Pairs(a)[k]);
    assert a[i] in b;
    var j :| 0 <= j < |b| && b[j] == a[i];
  }

  /** The order in which options are written does not matter. */
  lemma OptionOrderIsIrrelevant(a: seq<string>, b: seq<string>)
    requires DistinctKeys(a) && DistinctKeys(b) && (forall p :: p in a <==> p in b)
    ensures Pairs(a) == Pairs(b)
  {
    forall k | k in Pairs(a) ensures k in Pairs(b) && Pairs(b)[k] == Pairs(a)[k] {
      PairsWithin(a, b, k);
    }
    forall k | k in Pairs(b) ensures k in Pairs(a) {
      PairsWithin(b, a, k);
    }
  }

  // ---- all attributes ----

  const KNOWN_ATTRIBUTES := {
    "sourceVolumes", "options", "csi.storage.k8s.io/pod.name", "csi.storage.k8s.io/pod.namespace",
    "csi.storage.k8s.io/pod.uid", "csi.storage.k8s.io/serviceAccount.name", "csi.storage.k8s.io/ephemeral"}

  function Get(attrs: map<string, string>, key: string): string {
    if key in attrs then attrs[key] else ""
  }

  datatype Attributes = Attributes(sources: seq<SourceVolume>, options: map<string, string>)

  ghost function Declared(g: Grammar, attrs: map<string, string>): Option<Attributes> {
    var sources, options := Sources(g, Get(attrs, "sourceVolumes")), Options(Get(attrs, "options"));
    if attrs.Keys <= KNOWN_ATTRIBUTES && sources.Some? && options.Some?
    then Some(Attributes(sources.value, options.value))
    else None
  }

  method ParseAttributes(g: Grammar, attrs: map<string, string>) returns (r: Parsed<Attributes>)
    ensures Declared(g, attrs) == if r.Good? then Some(r.value) else None
    ensures r.Bad? && r.fault.UnknownKey? ==> r.fault.key in attrs && r.fault.key !in KNOWN_ATTRIBUTES
  {
    if k :| k in attrs && k !in KNOWN_ATTRIBUTES {
      return Bad(UnknownKey(k));
    }
    var sources := ParseSourceVolumes(g, Get(attrs, "sourceVolumes"));
    if sources.Bad? {
      return Bad(sources.fault);
    }
    var options := ParseOptions(Get(attrs, "options"));
    if options.Bad? {
      return Bad(options.fault);
    }
    return Good(Attributes(sources.value, options.value));
  }

  // ---- two spellings of one declaration ----

  /** The same entry, but for a default mode that one of them leaves out. */
  predicate SpelledAlike(g: Grammar, x: string, y: string) {
    || x == y
    || ('=' !in x && y == Assign(x, g.defaultMode))
    || ('=' !in y && x == Assign(y, g.defaultMode))
  }

  ghost predicate AlikeSources(g: Grammar, a: string, b: string) {
    var xs, ys := Split(a, ','), Split(b, ',');
    |xs| == |ys| && forall i | 0 <= i < |xs| :: SpelledAlike(g, xs[i], ys[i])
  }

  /** The same pairs with different keys, in any order. */
  ghost predicate AlikeOptions(a: string, b: string) {
    var xs, ys := Split(a, ','), Split(b, ',');
    DistinctKeys(xs) && DistinctKeys(ys) && forall p :: p in xs <==> p in ys
  }

  lemma AlikeEntries(g: Grammar, x: string, y: string)
    requires SpelledAlike(g, x, y)
    ensures Entry(g, x) == Entry(g, y)
  {
    if '=' !in x && y == Assign(x, g.defaultMode) {
      CutFirstAt(x, '=', g.defaultMode);
    }
    if '=' !in y && x == Assign(y, g.defaultMode) {
      CutFirstAt(y, '=', g.defaultMode);
    }
  }

  lemma AlikeSourcesParse(g: Grammar, a: string, b: string)
    requires AlikeSources(g, a, b)
    ensures Sources(g, a) == Sources(g, b)
  {
    var xs, ys := Split(a, ','), Split(b, ',');
    forall i | 0 <= i < |xs| ensures Entry(g, xs[i]) == Entry(g, ys[i]) {
      AlikeEntries(g, xs[i], ys[i]);
    }
    assert Listed(g, xs) == Listed(g, ys);
    NothingParsesNowhere(g);
    if a == "" || b == "" {
      assert Listed(g, xs)[0] == Entry(g, "");
    }
  }

  lemma NothingParsesNowhere(g: Grammar)
    ensures Split("", ',') == [""] && !ValidName(Entry(g, "").name)
  {}

  lemma AlikeOptionsParse(a: string, b: string)
    requires AlikeOptions(a, b)
    ensures Options(a) == Options(b)
  {
    var xs, ys := Split(a, ','), Split(b, ',');
    OptionOrderIsIrrelevant(xs, ys);
    OnlyNothing(a);
    OnlyNothing(b);
    assert xs[0] in ys && ys[0] in xs;
    if xs == [""] {
      OnlyOnePair(ys);
    } else if ys == [""] {
      OnlyOnePair(xs);
    }
  }

  lemma OnlyNothing(s: string)
    ensures Split(s, ',') == [""] <==> s == ""
  {}

  lemma FirstTwoDiffer(ys: seq<string>)
    requires DistinctKeys(ys)
    ensures |ys| > 1 ==> ys[0] != ys[1]
  {
    assert |ys| > 1 ==> Cut(ys[0]).0 != Cut(ys[1]).0;
  }

  lemma OnlyOnePair(ys: seq<string>)
    requires "" in ys && (forall p | p in ys :: p == "") && DistinctKeys(ys)
    ensures ys == [""]
  {
    FirstTwoDiffer(ys);
    forall i | 0 <= i < |ys| ensures ys[i] == "" {
      assert ys[i] in ys;
    }
  }

  /** Neither the order of the options nor a default mode that is written out changes what a
      volume declares. */
  lemma AlikeAttributesDeclareTheSame(g: Grammar, a: map<string, string>, b: map<string, string>)
    requires a.Keys <= KNOWN_ATTRIBUTES <==> b.Keys <= KNOWN_ATTRIBUTES
    requires AlikeSources(g, Get(a, "sourceVolumes"), Get(b, "sourceVolumes"))
    requires AlikeOptions(Get(a, "options"), Get(b, "options"))
    ensures Declared(g, a) == Declared(g, b)
  {
    AlikeSourcesParse(g, Get(a, "sourceVolumes"), Get(b, "sourceVolumes"));
    AlikeOptionsParse(Get(a, "options"), Get(b, "options"));
  }
}
