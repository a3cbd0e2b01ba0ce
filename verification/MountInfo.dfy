/** Which branches a running daemon has lost (pkg/backend/mergerfs/stale.go,
    probe_linux.go): a branch is judged by a probe and by the mount table of the daemon. The
    kernel escapes only blank, tab, newline and backslash in that table, while the code splits
    its lines at every Unicode blank, so a mount of a directory with such a blank in its name
    is misread. */
module MountInfo {
  import opened Text
  import opened Optional
  import opened Supervision
  import Argv

  /** strings.Fields: the words between blanks. */
  function Fields(s: string): (words: seq<string>)
  {
    if s == "" then []
    else if IsSpace(s[0]) then Fields(s[1..])
    else
      var n := WordLength(s);
      [s[..n]] + Fields(s[n..])
  }

  function WordLength(s: string): (n: nat)
    ensures n <= |s| && (s != "" && !IsSpace(s[0]) ==> n > 0)
    ensures (forall i | 0 <= i < n :: !IsSpace(s[i])) && (n < |s| ==> IsSpace(s[n]))
  {
    if s == "" || IsSpace(s[0]) then 0 else 1 + WordLength(s[1..])
  }

  ghost predicate IsFifth(lines: seq<string>, p: string) {
    exists i :: 0 <= i < |lines| && |Fields(lines[i])| > 4 && Fields(lines[i])[4] == p
  }

  /** mountPoints: the fifth field of every line that has one. */
  method MountPoints(lines: seq<string>) returns (points: set<string>)
    ensures forall p :: p in points <==> IsFifth(lines, p)
  {
    points := {};
    for i := 0 to |lines|
      invariant forall p :: p in points <==> IsFifth(lines[..i], p)
    {
      IsFifthNext(lines, i);
      var f := Fields(lines[i]);
      if |f| > 4 {
        points := points + {f[4]};
      }
    }
    assert lines[..|lines|] == lines;
  }

  lemma IsFifthNext(lines: seq<string>, i: nat)
    requires i < |lines|
    ensures forall p :: IsFifth(lines[..i + 1], p) <==>
              IsFifth(lines[..i], p) || (|Fields(lines[i])| > 4 && Fields(lines[i])[4] == p)
  {
    var longer := lines[..i + 1];
    assert longer[i] == lines[i] && longer[..i] == lines[..i];
    forall p | IsFifth(lines[..i], p) ensures IsFifth(longer, p) {
      var k :| 0 <= k < i && |Fields(lines[..i][k])| > 4 && Fields(lines[..i][k])[4] == p;
      assert longer[k] == lines[..i][k];
    }
  }

  // ---- the fields of a line ----

  predicate IsWord(w: string) {
    w != "" && forall c | c in w :: !IsSpace(c)
  }

  lemma {:induction false} WordLengthIs(w: string, rest: string)
    requires (forall c | c in w :: !IsSpace(c)) && (rest == "" || IsSpace(rest[0]))
    ensures WordLength(w + rest) == |w|
  {
    if w == "" {
      assert w + rest == rest;
    } else {
      assert w[0] in w && (w + rest)[1..] == w[1..] + rest;
      WordLengthIs(w[1..], rest);
    }
  }

  lemma {:induction false} WordLengthStays(a: string, rest: string)
    requires rest == "" || IsSpace(rest[0])
    ensures WordLength(a + rest) == WordLength(a)
  {
    if a == "" {
      assert a + rest == rest;
    } else {
      assert (a + rest)[1..] == a[1..] + rest;
      WordLengthStays(a[1..], rest);
    }
  }

  /** The fields of two texts with a blank between them. */
  lemma {:induction false} FieldsConcat(a: string, b: string)
    ensures Fields(a + [' '] + b) == Fields(a) + Fields(b)
    decreases |a|
  {
    var s := a + [' '] + b;
    if a == "" {
      assert s[0] == ' ' && s[1..] == b;
    } else if IsSpace(a[0]) {
      assert s[1..] == a[1..] + [' '] + b;
      FieldsConcat(a[1..], b);
    } else {
      var n := WordLength(a);
      assert s == a + ([' '] + b);
      WordLengthStays(a, [' '] + b);
      assert s[..n] == a[..n] && s[n..] == a[n..] + [' '] + b;
      FieldsConcat(a[n..], b);
    }
  }

  lemma FieldsOfWord(w: string)
    requires IsWord(w)
    ensures Fields(w) == [w]
  {
    WordLengthIs(w, "");
    assert w + "" == w && w[0] in w && w[..|w|] == w && w[|w|..] == "";
  }

  function FieldsOfAll(words: seq<string>): seq<string> {
    if words == [] then [] else Fields(words[0]) + FieldsOfAll(words[1..])
  }

  /** Reading a line gives the fields of the words it was written from, in order. */
  lemma {:induction false} FieldsOfLine(words: seq<string>)
    ensures Fields(Join(words, ' ')) == FieldsOfAll(words)
  {
    if |words| == 1 {
      assert words[1..] == [];
    } else if |words| > 1 {
      FieldsConcat(words[0], Join(words[1..], ' '));
      FieldsOfLine(words[1..]);
    }
  }

  // ---- the mount table ----

  /** What the kernel writes about a mount: ids, device, the directory that is mounted, as
      its file system names it, the mount point, and more. */
  datatype Entry = Entry(id: string, parent: string, dev: string, root: string, point: string, rest: seq<string>)

  predicate Starts(s: string) {
    s != "" && !IsSpace(s[0])
  }

  predicate Written(e: Entry) {
    IsWord(e.id) && IsWord(e.parent) && IsWord(e.dev) && Starts(e.root) && Starts(e.point)
  }

  function Line(e: Entry): string {
    Join([e.id, e.parent, e.dev, e.root, e.point] + e.rest, ' ')
  }

  function Lines(table: seq<Entry>): (lines: seq<string>)
    ensures |lines| == |table| && forall i | 0 <= i < |lines| :: lines[i] == Line(table[i])
  {
    seq(|table|, i requires 0 <= i < |table| => Line(table[i]))
  }

  /** The directory that is mounted has a blank in its name, with more behind it. */
  predicate Breaks(e: Entry) {
    |Fields(e.root)| > 1
  }

  lemma StartsHasFields(s: string)
    requires Starts(s)
    ensures Fields(s) != []
  {}

  /** What the code takes for the mount point of an entry. */
  function Fifth(e: Entry): string
    requires Written(e)
  {
    StartsHasFields(e.point);
    if Breaks(e) then Fields(e.root)[1] else Fields(e.point)[0]
  }

  lemma FifthField(e: Entry)
    requires Written(e)
    ensures |Fields(Line(e))| > 4 && Fields(Line(e))[4] == Fifth(e)
  {
    var words := [e.id, e.parent, e.dev, e.root, e.point] + e.rest;
    FieldsOfLine(words);
    FieldsOfWord(e.id);
    FieldsOfWord(e.parent);
    FieldsOfWord(e.dev);
    StartsHasFields(e.root);
    StartsHasFields(e.point);
    FiveAndMore(e.id, e.parent, e.dev, e.root, e.point, e.rest);
  }

  lemma FiveAndMore(a: string, b: string, c: string, d: string, e: string, rest: seq<string>)
    ensures FieldsOfAll([a, b, c, d, e] + rest)
         == Fields(a) + (Fields(b) + (Fields(c) + (Fields(d) + (Fields(e) + FieldsOfAll(rest)))))
  {
    assert [a, b, c, d, e] + rest == [a] + ([b] + ([c] + ([d] + ([e] + rest))));
    FieldsOfCons(e, rest);
    FieldsOfCons(d, [e] + rest);
    FieldsOfCons(c, [d] + ([e] + rest));
    FieldsOfCons(b, [c] + ([d] + ([e] + rest)));
    FieldsOfCons(a, [b] + ([c] + ([d] + ([e] + rest))));
  }

  lemma FieldsOfCons(w: string, words: seq<string>)
    ensures FieldsOfAll([w] + words) == Fields(w) + FieldsOfAll(words)
  {
    assert ([w] + words)[1..] == words;
  }

  predicate IsTable(table: seq<Entry>) {
    forall e | e in table :: Written(e)
  }

  /** Something is mounted at p. */
  predicate IsMount(table: seq<Entry>, p: string) {
    exists e :: e in table && e.point == p
  }

  /** The code finds p among the mount points. */
  predicate IsFound(table: seq<Entry>, p: string)
    requires IsTable(table)
  {
    exists e :: e in table && Fifth(e) == p
  }

  // ---- judging a branch ----

  /** deadInDaemon. */
  predicate DeadInDaemon(seen: Probed) {
    seen == Dead || seen == Hung
  }

  /** Stale in the daemon: it is dead there, or the mount table, if it can be read, does not
      have it. */
  predicate StaleInDaemon(seen: Probed, points: Option<set<string>>, sandbox: string) {
    DeadInDaemon(seen) || (points.Some? && sandbox !in points.value)
  }

  /** What repairBranches decides about branch i from a probe and the mount table. */
  method Judge(table: Option<seq<Entry>>, i: nat, seen: Probed) returns (stale: bool)
    requires table.Some? ==> IsTable(table.value)
    ensures stale <==> DeadInDaemon(seen) || (table.Some? && !IsFound(table.value, Argv.BranchPath(i)))
  {
    if table.None? {
      return StaleInDaemon(seen, None, Argv.BranchPath(i));
    }
    var points := MountPoints(Lines(table.value));
    FoundIsFifth(table.value, Argv.BranchPath(i));
    return StaleInDaemon(seen, Some(points), Argv.BranchPath(i));
  }

  lemma FoundIsFifth(table: seq<Entry>, p: string)
    requires IsTable(table)
    ensures IsFifth(Lines(table), p) <==> IsFound(table, p)
  {
    var lines := Lines(table);
    forall k | 0 <= k < |table| ensures |Fields(lines[k])| > 4 && Fields(lines[k])[4] == Fifth(table[k]) {
      assert table[k] in table;
      FifthField(table[k]);
    }
    if IsFound(table, p) {
      var e :| e in table && Fifth(e) == p;
      var k :| 0 <= k < |table| && table[k] == e;
      assert Fields(lines[k])[4] == p;
    }
  }

  /** The entry is read as what it is: a mount at p. */
  predicate Shows(e: Entry, p: string) {
    e.point == p && !Breaks(e)
  }

  /** The entry is taken for a mount at p, which its own point does not make it: the word
      behind a blank in the name of what is mounted is p, or its point goes on behind one. */
  predicate Shadows(e: Entry, p: string)
    requires Written(e)
  {
    if Breaks(e) then Fields(e.root)[1] == p
    else
      StartsHasFields(e.point);
      e.point != p && Fields(e.point)[0] == p
  }

  lemma FifthIs(e: Entry, p: string)
    requires Written(e) && IsWord(p)
    ensures Fifth(e) == p <==> Shows(e, p) || Shadows(e, p)
  {
    StartsHasFields(e.point);
    FieldsOfWord(p);
  }

  /** The judgement about a mount point is right exactly if a mounted one has an entry that is
      read as it or taken for it, and one that is not mounted has none that is taken for it. */
  lemma JudgedRightIff(table: seq<Entry>, p: string)
    requires IsTable(table) && IsWord(p)
    ensures (IsFound(table, p) <==> IsMount(table, p)) <==>
            if IsMount(table, p) then exists e :: e in table && (Shows(e, p) || Shadows(e, p))
            else forall e | e in table :: !Shadows(e, p)
  {
    forall e | e in table ensures Fifth(e) == p <==> Shows(e, p) || Shadows(e, p) {
      FifthIs(e, p);
    }
    if IsFound(table, p) {
      var e :| e in table && Fifth(e) == p;
      assert Shows(e, p) || Shadows(e, p);
    }
  }

  lemma BranchPathIsWord(i: nat)
    ensures IsWord(Argv.BranchPath(i))
  {
    var d := Argv.Decimal(i);
    assert Argv.BranchPath(i) == Argv.SANDBOX_BRANCH_DIR + "/" + d;
    assert forall c | c in d :: c in Argv.DIGITS;
    var dir := Argv.SANDBOX_BRANCH_DIR + "/";
    assert forall k | 0 <= k < |dir| :: !IsSpace(dir[k]);
  }

  /** So every branch is judged by its own mount where no name of what is mounted, and no
      mount point, has a blank. */
  lemma PlainTablesJudgeRight(table: seq<Entry>, i: nat)
    requires IsTable(table) && forall e | e in table :: IsWord(e.root) && IsWord(e.point)
    ensures IsFound(table, Argv.BranchPath(i)) <==> IsMount(table, Argv.BranchPath(i))
  {
    var p := Argv.BranchPath(i);
    BranchPathIsWord(i);
    JudgedRightIff(table, p);
    forall e | e in table ensures !Breaks(e) && !Shadows(e, p) {
      FieldsOfWord(e.root);
      FieldsOfWord(e.point);
    }
    if IsMount(table, p) {
      var e :| e in table && e.point == p;
      assert Shows(e, p);
    }
  }

  // ---- tables that are misread ----

  const NO_BREAK_SPACE := '\U{A0}'

  function EntryOf(root: string, i: nat): Entry {
    Entry("36", "35", "0:32", root, Argv.BranchPath(i), ["rw"])
  }

  lemma EntryIsWritten(root: string, i: nat)
    requires Starts(root)
    ensures Written(EntryOf(root, i))
  {
    BranchPathIsWord(i);
    assert Argv.BranchPath(i)[0] in Argv.BranchPath(i);
  }

  lemma BrokenRoot(a: string, b: string)
    requires IsWord(a) && IsWord(b)
    ensures Fields(a + [NO_BREAK_SPACE] + b) == [a, b]
  {
    var s := a + [NO_BREAK_SPACE] + b;
    assert s == a + ([NO_BREAK_SPACE] + b);
    WordLengthIs(a, [NO_BREAK_SPACE] + b);
    assert a[0] in a && s[0] == a[0];
    assert s[..|a|] == a && s[|a|..] == [NO_BREAK_SPACE] + b && s[|a|..][1..] == b;
    FieldsOfWord(b);
  }

  /** A mounted branch is judged gone: what is mounted there is called "/x", a no-break
      space and "y". It will be replaced again and again. */
  lemma MountedBranchIsMissed(i: nat)
    ensures var table := [EntryOf("/x" + [NO_BREAK_SPACE] + "y", i)];
            IsTable(table) && IsMount(table, Argv.BranchPath(i)) && !IsFound(table, Argv.BranchPath(i))
  {
    var e := EntryOf("/x" + [NO_BREAK_SPACE] + "y", i);
    BrokenRoot("/x", "y");
    EntryIsWritten("/x" + [NO_BREAK_SPACE] + "y", i);
    assert e in [e] && Fifth(e) == "y";
    assert Argv.BranchPath(i)[0] == '/';
  }

  /** A lost branch looks mounted: what is mounted at another one has its path behind a
      no-break space. It will not be replaced. */
  lemma LostBranchIsFound(i: nat, j: nat)
    requires i != j
    ensures var table := [EntryOf("/x" + [NO_BREAK_SPACE] + Argv.BranchPath(i), j)];
            IsTable(table) && !IsMount(table, Argv.BranchPath(i)) && IsFound(table, Argv.BranchPath(i))
  {
    var root := "/x" + [NO_BREAK_SPACE] + Argv.BranchPath(i);
    var e := EntryOf(root, j);
    BranchPathIsWord(i);
    BrokenRoot("/x", Argv.BranchPath(i));
    EntryIsWritten(root, j);
    assert e in [e] && Fifth(e) == Argv.BranchPath(i);
    if Argv.BranchPath(i) == Argv.BranchPath(j) {
      Argv.BranchPathsDiffer(i, j);
    }
  }
}
