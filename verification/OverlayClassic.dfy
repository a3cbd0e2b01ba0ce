/** The one option string of the classic mount interface, with escaped layer paths
    (pkg/backend/overlay/mount_linux.go), and how the kernel takes it apart: at commas that
    are not escaped, then at colons that are not, and then without the escapes. It says
    exactly what the calls of the newer interface say. */
module OverlayClassic {
  import opened Text
  import opened Escapes
  import opened Ordering
  import opened Policy
  import opened Overlay
  import Argv
  import Schemas

  // ---- escaping ----

  /** escapeOptionValue. */
  function Escape(s: string): string {
    if s == "" then ""
    else (if s[0] == '\\' || s[0] == ':' || s[0] == ',' then ['\\', s[0]] else [s[0]]) + Escape(s[1..])
  }

  function Unescape(s: string): string {
    if s == "" then ""
    else if s[0] == '\\' && |s| > 1 then [s[1]] + Unescape(s[2..])
    else [s[0]] + Unescape(s[1..])
  }

  lemma {:induction false} UnescapeEscape(s: string)
    ensures Unescape(Escape(s)) == s
  {
    if s != "" {
      UnescapeEscape(s[1..]);
      var e := Escape(s);
      if s[0] == '\\' || s[0] == ':' || s[0] == ',' {
        assert e[0] == '\\' && e[1] == s[0] && e[2..] == Escape(s[1..]);
      } else {
        assert e[0] == s[0] && e[1..] == Escape(s[1..]);
      }
      assert s == [s[0]] + s[1..];
    }
  }

  lemma {:induction false} EscapeIsSealed(s: string, sep: char)
    requires sep == ':' || sep == ','
    ensures Sealed(Escape(s), sep)
  {
    if s != "" {
      EscapeIsSealed(s[1..], sep);
      var e := Escape(s);
      if s[0] == '\\' || s[0] == ':' || s[0] == ',' {
        assert e[0] == '\\' && e[2..] == Escape(s[1..]);
      } else {
        assert e[0] == s[0] && e[1..] == Escape(s[1..]);
      }
    }
  }

  // ---- writing the string ----

  function EscapeAll(paths: seq<string>): (es: seq<string>)
    ensures |es| == |paths| && forall i | 0 <= i < |es| :: es[i] == Escape(paths[i])
  {
    seq(|paths|, i requires 0 <= i < |paths| => Escape(paths[i]))
  }

  function OptionWord(schema: Schema, k: string, v: string): string {
    if IsFlag(schema, k) then k else Argv.Assign(k, v)
  }

  function OptionWords(schema: Schema, ks: seq<string>, options: map<string, string>): (ws: seq<string>)
    requires forall k | k in ks :: k in options
    ensures |ws| == |ks| && forall i | 0 <= i < |ws| :: ws[i] == OptionWord(schema, ks[i], options[ks[i]])
  {
    seq(|ks|, i requires 0 <= i < |ks| => OptionWord(schema, ks[i], options[ks[i]]))
  }

  function LowerWord(lowers: seq<string>): string {
    Argv.Assign("lowerdir", Join(EscapeAll(lowers), ':'))
  }

  function UpperWords(l: Layout): seq<string> {
    if l.upper != "" then [Argv.Assign("upperdir", Escape(l.upper)), Argv.Assign("workdir", Escape(l.work))] else []
  }

  // ---- reading it ----

  function LowersIn(val: string): seq<Call> {
    var parts := SplitPlain(val, ':');
    seq(|parts|, i requires 0 <= i < |parts| => SetString("lowerdir+", Unescape(parts[i])))
  }

  function ReadField(w: string): seq<Call> {
    if '=' !in w then [SetFlag(w)]
    else
      var (key, val) := Argv.CutFirst(w, '=');
      if key == "lowerdir" then LowersIn(val)
      else if key == "upperdir" || key == "workdir" then [SetString(key, Unescape(val))]
      else [SetString(key, val)]
  }

  function ReadFields(ws: seq<string>): seq<Call> {
    if ws == [] then [] else ReadField(ws[0]) + ReadFields(ws[1..])
  }

  /** What the kernel understands. */
  function Read(data: string): seq<Call> {
    ReadFields(SplitPlain(data, ','))
  }

  lemma {:induction false} ReadFieldsConcat(a: seq<string>, b: seq<string>)
    ensures ReadFields(a + b) == ReadFields(a) + ReadFields(b)
  {
    if a == [] {
      assert a + b == b;
    } else {
      assert (a + b)[1..] == a[1..] + b;
      ReadFieldsConcat(a[1..], b);
    }
  }

  predicate Reserved(k: string) {
    k == "lowerdir" || k == "upperdir" || k == "workdir"
  }

  /** Options that name no layer and cannot end or escape a field. */
  ghost predicate HarmlessOptions(options: map<string, string>) {
    forall k | k in options :: !Reserved(k) && '=' !in k && Argv.Harmless(k) && Argv.Harmless(options[k])
  }

  /** mountClassic. The string says what the calls of mountFsconfig say, for layer paths
      with any characters in them. */
  method MountClassic(l: Layout, schema: Schema) returns (data: string)
    ensures l.lowers != [] && HarmlessOptions(l.options) ==> Read(data) == Told(l, schema)
  {
    var escaped := EscapeLowers(l.lowers);
    var opts := ["lowerdir=" + Join(escaped, ':')];
    if l.upper != "" {
      opts := opts + ["upperdir=" + Escape(l.upper), "workdir=" + Escape(l.work)];
    }
    ghost var layers := opts;
    assert "lowerdir=" == "lowerdir" + ['='] && "upperdir=" == "upperdir" + ['='] && "workdir=" == "workdir" + ['='];
    assert layers == [LowerWord(l.lowers)] + UpperWords(l);
    var words := WriteOptions(l.options, schema);
    opts := opts + words;
    data := Join(opts, ',');
    if l.lowers != [] && HarmlessOptions(l.options) {
      ReadsBack(l, schema, words);
    }
  }

  method EscapeLowers(lowers: seq<string>) returns (escaped: seq<string>)
    ensures escaped == EscapeAll(lowers)
  {
    escaped := [];
    for i := 0 to |lowers|
      invariant escaped == EscapeAll(lowers[..i])
    {
      escaped := escaped + [Escape(lowers[i])];
    }
    assert lowers[..|lowers|] == lowers;
  }

  /** Its loop over the options. */
  method WriteOptions(options: map<string, string>, schema: Schema) returns (words: seq<string>)
    ensures words == OptionWords(schema, SortedKeys(options.Keys), options)
  {
    words := [];
    var ks := SortKeys(options);
    for i := 0 to |ks|
      invariant words == OptionWords(schema, ks[..i], options)
    {
      OptionWordsNext(schema, ks, options, i);
      words := words + [if IsFlag(schema, ks[i]) then ks[i] else ks[i] + "=" + options[ks[i]]];
    }
    assert ks[..|ks|] == ks;
  }

  lemma OptionWordsNext(schema: Schema, ks: seq<string>, options: map<string, string>, i: nat)
    requires i < |ks| && forall k | k in ks :: k in options
    ensures (forall k | k in ks[..i] :: k in options) && (forall k | k in ks[..i + 1] :: k in options)
            && ks[i] in options
    ensures OptionWords(schema, ks[..i + 1], options)
         == OptionWords(schema, ks[..i], options) + [OptionWord(schema, ks[i], options[ks[i]])]
  {
    forall k | k in ks[..i + 1] ensures k in ks {}
    assert ks[i] in ks;
  }

  // ---- the two interfaces agree ----

  lemma LowerWordReads(lowers: seq<string>)
    requires lowers != []
    ensures Sealed(LowerWord(lowers), ',') && ReadField(LowerWord(lowers)) == LowerCalls(lowers)
  {
    var es := EscapeAll(lowers);
    forall i | 0 <= i < |es| ensures Sealed(es[i], ',') && Sealed(es[i], ':') && Unescape(es[i]) == lowers[i] {
      EscapeIsSealed(lowers[i], ',');
      EscapeIsSealed(lowers[i], ':');
      UnescapeEscape(lowers[i]);
    }
    JoinIsSealed(es, ':', ',');
    SealedAssign("lowerdir", Join(es, ':'));
    SplitPlainJoin(es, ':');
    Argv.CutFirstAt("lowerdir", '=', Join(es, ':'));
  }

  lemma SealedAssign(k: string, v: string)
    requires Argv.Harmless(k) && Sealed(v, ',')
    ensures Sealed(Argv.Assign(k, v), ',')
  {
    CleanIsSealed(k, ',');
    assert Sealed(['='], ',');
    SealedConcat(k, ['='], ',');
    SealedConcat(k + ['='], v, ',');
  }

  lemma UpperWordsRead(l: Layout)
    ensures AllSealed(UpperWords(l), ',') && ReadFields(UpperWords(l)) == UpperCalls(l)
  {
    if l.upper != "" {
      UpperWordReads("upperdir", l.upper);
      UpperWordReads("workdir", l.work);
      ReadSingles(UpperWords(l), UpperCalls(l));
    }
  }

  lemma UpperWordReads(k: string, path: string)
    requires k == "upperdir" || k == "workdir"
    ensures var w := Argv.Assign(k, Escape(path)); Sealed(w, ',') && ReadField(w) == [SetString(k, path)]
  {
    EscapeIsSealed(path, ',');
    SealedAssign(k, Escape(path));
    UnescapeEscape(path);
    Argv.CutFirstAt(k, '=', Escape(path));
  }

  lemma OptionWordReads(schema: Schema, k: string, v: string)
    requires !Reserved(k) && '=' !in k && Argv.Harmless(k) && Argv.Harmless(v)
    ensures Sealed(OptionWord(schema, k, v), ',') && ReadField(OptionWord(schema, k, v)) == [OptionCall(schema, k, v)]
  {
    CleanIsSealed(k, ',');
    CleanIsSealed(v, ',');
    if !IsFlag(schema, k) {
      SealedAssign(k, v);
      Argv.CutFirstAt(k, '=', v);
    }
  }

  lemma {:induction false} ReadSingles(ws: seq<string>, calls: seq<Call>)
    requires |ws| == |calls| && forall i | 0 <= i < |ws| :: ReadField(ws[i]) == [calls[i]]
    ensures ReadFields(ws) == calls
  {
    if ws != [] {
      ReadSingles(ws[1..], calls[1..]);
    }
  }

  lemma OptionWordsRead(schema: Schema, ks: seq<string>, options: map<string, string>)
    requires HarmlessOptions(options) && forall k | k in ks :: k in options
    ensures AllSealed(OptionWords(schema, ks, options), ',')
    ensures ReadFields(OptionWords(schema, ks, options)) == OptionCalls(schema, ks, options)
  {
    var ws, calls := OptionWords(schema, ks, options), OptionCalls(schema, ks, options);
    forall i | 0 <= i < |ks| ensures Sealed(ws[i], ',') && ReadField(ws[i]) == [calls[i]] {
      assert ks[i] in ks;
      OptionWordReads(schema, ks[i], options[ks[i]]);
    }
    ReadSingles(ws, calls);
  }

  lemma ReadsBack(l: Layout, schema: Schema, words: seq<string>)
    requires l.lowers != [] && HarmlessOptions(l.options)
    requires words == OptionWords(schema, SortedKeys(l.options.Keys), l.options)
    ensures Read(Join([LowerWord(l.lowers)] + UpperWords(l) + words, ',')) == Told(l, schema)
  {
    var lower, upper := [LowerWord(l.lowers)], UpperWords(l);
    LowerWordReads(l.lowers);
    UpperWordsRead(l);
    OptionWordsRead(schema, SortedKeys(l.options.Keys), l.options);
    SplitPlainJoin(lower + upper + words, ',');
    ReadFieldsConcat(lower + upper, words);
    ReadFieldsConcat(lower, upper);
    assert lower[1..] == [];
    assert ReadFields(lower) == LowerCalls(l.lowers);
  }

  /** Every option that the policy lets through with the overlay schema is harmless. */
  lemma ValidOptionsAreHarmless(options: map<string, string>)
    requires AllSchemaOk(Schemas.OVERLAY_SCHEMA, options)
    ensures HarmlessOptions(options)
  {
    Schemas.OverlaySchemaIsPlain();
    ValidOptionsArePlain(Schemas.OVERLAY_SCHEMA, options);
    forall k | k in options ensures !Reserved(k) && '=' !in k {
      assert SchemaOk(Schemas.OVERLAY_SCHEMA, k, options[k]);
      NothingReserved(k);
    }
  }

  lemma NothingReserved(k: string)
    requires k in Schemas.OVERLAY_SCHEMA
    ensures !Reserved(k)
  {
    assert "lowerdir"[0] == 'l' && "upperdir"[0] == 'u' && "upperdir"[1] == 'p' && "workdir"[0] == 'w';
  }
}
