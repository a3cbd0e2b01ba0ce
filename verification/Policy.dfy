/** The option policy: defaults, then what the pod asks for, then what the admin forces
    (pkg/backend/policy.go, pkg/backend/backend.go). */
module Policy {
  import opened Optional
  import opened Argv

  datatype Kind = FlagKind | EnumKind | BoolKind | DurationKind | IntKind | SizeKind

  datatype OptionSpec = OptionSpec(kind: Kind, enum: seq<string>, min: int, max: int)

  type Schema = map<string, OptionSpec>

  datatype PolicyConfig = PolicyConfig(
    allowlist: seq<string>, denylist: seq<string>, strip: bool,
    defaults: map<string, string>, forced: map<string, string>)

  // ---- option values ----

  predicate IsDigits(s: string) {
    s != "" && forall c | c in s :: c in DIGITS
  }

  function DigitValue(c: char): nat {
    if '0' <= c <= '9' then (c - '0') as nat else 0
  }

  function NumberOf(s: string): nat {
    if s == "" then 0 else 10 * NumberOf(s[..|s| - 1]) + DigitValue(s[|s| - 1])
  }

  predicate Signed(s: string) {
    s != "" && (s[0] == '-' || s[0] == '+')
  }

  /** The value strconv.ParseInt gives, sign included. */
  function IntOf(s: string): int {
    if Signed(s) then (if s[0] == '-' then -1 else 1) * NumberOf(s[1..]) else NumberOf(s)
  }

  const MAX_UINT32 := 0xFFFF_FFFF
  const MAX_INT64 := 0x7FFF_FFFF_FFFF_FFFF

  predicate IsInt64(s: string) {
    IsDigits(if Signed(s) then s[1..] else s) && -MAX_INT64 - 1 <= IntOf(s) <= MAX_INT64
  }

  predicate IsSize(s: string) {
    || IsDigits(s)
    || (s != "" && s[|s| - 1] in ['K', 'M', 'G', 'T'] && IsDigits(s[..|s| - 1]))
  }

  predicate ValueOk(spec: OptionSpec, value: string) {
    match spec.kind
    case FlagKind => value == "" || value == "true"
    case EnumKind => value in spec.enum
    case BoolKind => value == "true" || value == "false"
    case DurationKind => IsDigits(value) && NumberOf(value) <= MAX_UINT32
    case IntKind => IsInt64(value) && spec.min <= IntOf(value) <= spec.max
    case SizeKind => IsSize(value)
  }

  /** checkSchema. */
  predicate SchemaOk(schema: Schema, key: string, value: string) {
    key in schema && ValueOk(schema[key], value)
  }

  predicate AllSchemaOk(schema: Schema, options: map<string, string>) {
    forall k | k in options :: SchemaOk(schema, k, options[k])
  }

  /** Policy.Validate, called once at startup. */
  predicate Validated(schema: Schema, config: PolicyConfig) {
    AllSchemaOk(schema, config.defaults) && AllSchemaOk(schema, config.forced)
  }

  predicate Allowed(config: PolicyConfig, key: string) {
    config.allowlist == [] || key in config.allowlist
  }

  // ---- resolving ----

  datatype Refusal = OffSchema(key: string) | DeniedOption(key: string) | NotAllowlisted(key: string)

  datatype Resolved = Options(options: map<string, string>) | Refuse(why: Refusal)

  /** Nothing is wrong with this one pod option. A denied one is fine if it is stripped. */
  predicate Passes(schema: Schema, config: PolicyConfig, key: string, value: string) {
    && SchemaOk(schema, key, value)
    && if key in config.denylist then config.strip else Allowed(config, key)
  }

  function Kept(config: PolicyConfig, pod: map<string, string>): map<string, string> {
    map k | k in pod && k !in config.denylist :: pod[k]
  }

  /** The policy in one line: defaults, overlaid by the pod's options that are not denied,
      overlaid by the forced ones. */
  ghost function Merged(config: PolicyConfig, pod: map<string, string>): map<string, string> {
    config.defaults + Kept(config, pod) + config.forced
  }

  ghost predicate WrongWith(schema: Schema, config: PolicyConfig, pod: map<string, string>, why: Refusal) {
    && why.key in pod && !Passes(schema, config, why.key, pod[why.key])
    && why == if !SchemaOk(schema, why.key, pod[why.key]) then OffSchema(why.key)
              else if why.key in config.denylist then DeniedOption(why.key)
              else NotAllowlisted(why.key)
  }

  /** Policy.Resolve ranges over maps, whose order is arbitrary; neither its success nor its
      result depends on that order. */
  method Resolve(schema: Schema, config: PolicyConfig, pod: map<string, string>) returns (r: Resolved)
    ensures r.Options? <==> forall k | k in pod :: Passes(schema, config, k, pod[k])
    ensures r.Options? ==> r.options == Merged(config, pod)
    ensures r.Refuse? ==> WrongWith(schema, config, pod, r.why)
  {
    var result := Overlay(map[], config.defaults);
    var todo := pod.Keys;
    StartMerge(config, pod);
    while todo != {}
      invariant todo <= pod.Keys && result == MergedSoFar(config, pod, todo)
      invariant forall k | k in pod && k !in todo :: Passes(schema, config, k, pod[k])
      decreases |todo|
    {
      var k :| k in todo;
      var why := CheckOption(schema, config, k, pod[k]);
      if why.Some? {
        return Refuse(why.value);
      }
      MergeGrows(config, pod, todo, k);
      todo := todo - {k};
      if k !in config.denylist {
        result := result[k := pod[k]];
      }
    }
    result := Overlay(result, config.forced);
    EndMerge(config, pod);
    return Options(result);
  }

  /** The checks of one turn of that loop. */
  method CheckOption(schema: Schema, config: PolicyConfig, k: string, v: string) returns (why: Option<Refusal>)
    ensures why.None? <==> Passes(schema, config, k, v)
    ensures why.Some? ==> why.value == if !SchemaOk(schema, k, v) then OffSchema(k) else if k in config.denylist then
            DeniedOption(k) else NotAllowlisted(k)
  {
    if !SchemaOk(schema, k, v) {
      return Some(OffSchema(k));
    }
    if k in config.denylist {
      return if config.strip then None else Some(DeniedOption(k));
    }
    return if Allowed(config, k) then None else Some(NotAllowlisted(k));
  }

  ghost function MergedSoFar(config: PolicyConfig, pod: map<string, string>, todo: set<string>): map<string, string> {
    config.defaults + Kept(config, pod - todo)
  }

  lemma StartMerge(config: PolicyConfig, pod: map<string, string>)
    ensures map[] + config.defaults == MergedSoFar(config, pod, pod.Keys)
  {
    assert Kept(config, pod - pod.Keys) == map[];
  }

  lemma MergeGrows(config: PolicyConfig, pod: map<string, string>, todo: set<string>, k: string)
    requires k in todo && k in pod
    ensures MergedSoFar(config, pod, todo - {k})
         == if k in config.denylist then MergedSoFar(config, pod, todo) else MergedSoFar(config, pod, todo)[k := pod[k]]
  {
    KeptGrows(config, pod, todo, k);
  }

  lemma EndMerge(config: PolicyConfig, pod: map<string, string>)
    ensures MergedSoFar(config, pod, {}) + config.forced == Merged(config, pod)
  {
    assert pod - {} == pod;
  }

  lemma KeptGrows(config: PolicyConfig, pod: map<string, string>, todo: set<string>, k: string)
    requires k in todo && k in pod
    ensures Kept(config, pod - (todo - {k}))
         == if k in config.denylist then Kept(config, pod - todo) else Kept(config, pod - todo)[k := pod[k]]
  {
    var m, n := Kept(config, pod - todo), Kept(config, pod - (todo - {k}));
    assert forall x :: x in n <==> x in m || (x == k && k !in config.denylist);
  }

  /** One of the loops that copy a map over another. */
  method Overlay(base: map<string, string>, over: map<string, string>) returns (result: map<string, string>)
    ensures result == base + over
  {
    result := base;
    var todo := over.Keys;
    StartOverlay(base, over);
    while todo != {}
      invariant todo <= over.Keys && result == OverlaidSoFar(base, over, todo)
      decreases |todo|
    {
      var k :| k in todo;
      OverlayGrows(base, over, todo, k);
      todo := todo - {k};
      result := result[k := over[k]];
    }
  }

  ghost function OverlaidSoFar(base: map<string, string>, over: map<string, string>,
                               todo: set<string>): map<string, string> {
    base + (over - todo)
  }

  lemma StartOverlay(base: map<string, string>, over: map<string, string>)
    ensures base == OverlaidSoFar(base, over, over.Keys) && OverlaidSoFar(base, over, {}) == base + over
  {
    assert over - over.Keys == map[] && over - {} == over;
  }

  lemma OverlayGrows(base: map<string, string>, over: map<string, string>, todo: set<string>, k: string)
    requires k in todo && k in over
    ensures OverlaidSoFar(base, over, todo - {k}) == OverlaidSoFar(base, over, todo)[k := over[k]]
  {
    assert over - (todo - {k}) == (over - todo)[k := over[k]];
  }

  /** What a validated policy lets through is always valid for the backend, whatever the pod
      asks, and the value of a denied option comes from the admin alone. */
  lemma ResultIsSafe(schema: Schema, config: PolicyConfig, pod: map<string, string>)
    requires Validated(schema, config) && forall k | k in pod :: Passes(schema, config, k, pod[k])
    ensures AllSchemaOk(schema, Merged(config, pod))
    ensures forall k | k in Merged(config, pod) && k in config.denylist ::
              if k in config.forced then Merged(config, pod)[k] == config.forced[k]
              else k in config.defaults && Merged(config, pod)[k] == config.defaults[k]
    ensures forall k | k in config.forced :: Merged(config, pod)[k] == config.forced[k]
  {}

  // ---- no option can break out of the option string ----

  ghost predicate PlainSchema(schema: Schema) {
    forall k | k in schema :: Harmless(k) && '=' !in k && forall v | v in schema[k].enum :: Harmless(v)
  }

  lemma DigitsAreHarmless(s: string)
    requires IsDigits(s)
    ensures Harmless(s)
  {}

  lemma ValidValueIsPlain(spec: OptionSpec, value: string)
    requires ValueOk(spec, value) && forall v | v in spec.enum :: Harmless(v)
    ensures Harmless(value)
  {
    match spec.kind {
      case FlagKind =>
      case EnumKind =>
      case BoolKind =>
      case DurationKind =>
      case IntKind =>
        if Signed(value) {
          DigitsAreHarmless(value[1..]);
          assert value == [value[0]] + value[1..];
        }
      case SizeKind =>
        if !IsDigits(value) {
          DigitsAreHarmless(value[..|value| - 1]);
          assert value == value[..|value| - 1] + [value[|value| - 1]];
        }
    }
  }

  /** Schema-valid options of a plain schema survive the comma-separated option string. */
  lemma ValidOptionsArePlain(schema: Schema, options: map<string, string>)
    requires PlainSchema(schema) && AllSchemaOk(schema, options)
    ensures PlainOptions(options)
  {
    forall k | k in options ensures '=' !in k && Harmless(k) && Harmless(options[k]) {
      assert SchemaOk(schema, k, options[k]);
      ValidValueIsPlain(schema[k], options[k]);
    }
  }
}
