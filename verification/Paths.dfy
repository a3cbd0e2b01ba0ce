/** The path algebra of Go's filepath package on absolute Unix paths, the only ones
    the resolver builds. A path means a list of proper names below "/"; the lemmas
    tie the string operations to that list. */
module Paths {
  import opened Text

  predicate IsAbs(s: string) {
    s != "" && s[0] == '/'
  }

  /** A name that can stand for a directory entry. */
  predicate Proper(c: string) {
    c != "" && c != "." && c != ".." && '/' !in c
  }

  predicate AllProper(cs: seq<string>) {
    forall c | c in cs :: Proper(c)
  }

  function Parent(cs: seq<string>): seq<string> {
    if cs == [] then [] else cs[..|cs| - 1]
  }

  /** Lexical elimination of empty, "." and ".." elements, starting below base. */
  function Normalize(base: seq<string>, parts: seq<string>): (cs: seq<string>)
    requires AllProper(base)
    requires forall p | p in parts :: '/' !in p
    ensures AllProper(cs)
    decreases |parts|
  {
    if parts == [] then base
    else
      var c, rest := parts[0], parts[1..];
      if c == "" || c == "." then Normalize(base, rest)
      else if c == ".." then Normalize(Parent(base), rest)
      else Normalize(base + [c], rest)
  }

  /** What an absolute path string denotes. */
  function Comps(s: string): (cs: seq<string>)
    requires IsAbs(s)
    ensures AllProper(cs)
  {
    Normalize([], Split(s, '/'))
  }

  /** The clean path string of a list of names. */
  function Render(cs: seq<string>): (s: string)
    ensures IsAbs(s)
  {
    "/" + Join(cs, '/')
  }

  /** filepath.Clean. */
  function Clean(s: string): string
    requires IsAbs(s)
  {
    Render(Comps(s))
  }

  predicate IsClean(s: string) {
    IsAbs(s) && Clean(s) == s
  }

  /** filepath.Join, which skips empty elements. */
  function JoinPath(a: string, b: string): string
    requires IsAbs(a)
  {
    if b == "" then Clean(a) else Clean(a + "/" + b)
  }

  /** filepath.Dir: everything up to the last separator, cleaned. */
  function Dir(s: string): string
    requires IsAbs(s)
  {
    var parts := Split(s, '/');
    Normalized(parts[..|parts| - 1])
  }

  function Normalized(parts: seq<string>): string
    requires forall p | p in parts :: '/' !in p
  {
    Render(Normalize([], parts))
  }

  /** filepath.Base: the last element that is not empty. */
  function Base(s: string): string
    requires IsAbs(s)
  {
    LastPart(Split(s, '/'))
  }

  function LastPart(parts: seq<string>): string {
    if parts == [] then "/"
    else if parts[|parts| - 1] != "" then parts[|parts| - 1]
    else LastPart(parts[..|parts| - 1])
  }

  function CommonPrefix(a: seq<string>, b: seq<string>): (k: nat)
    ensures k <= |a| && k <= |b| && a[..k] == b[..k]
    ensures k < |a| && k < |b| ==> a[k] != b[k]
  {
    if a == [] || b == [] || a[0] != b[0] then 0 else 1 + CommonPrefix(a[1..], b[1..])
  }

  /** The steps from base to target: up to the common ancestor, then down. */
  function RelParts(base: seq<string>, target: seq<string>): seq<string> {
    var k := CommonPrefix(base, target);
    var ups := seq(|base| - k, _ => "..");
    if ups + target[k..] == [] then ["."] else ups + target[k..]
  }

  /** filepath.Rel of two absolute paths, which never fails. */
  function Rel(base: string, target: string): string
    requires IsAbs(base) && IsAbs(target)
  {
    Join(RelParts(Comps(base), Comps(target)), '/')
  }

  /** The lexical containment test of pkg/volsource/hostpaths.go. */
  predicate Under(p: string, dir: string) {
    dir == "/" || p == dir || dir + "/" <= p
  }

  lemma {:induction false} NormalizeAppend(base: seq<string>, a: seq<string>, b: seq<string>)
    requires AllProper(base)
    requires forall p | p in a + b :: '/' !in p
    ensures forall p | p in a :: p in a + b
    ensures forall p | p in b :: p in a + b
    ensures Normalize(base, a + b) == Normalize(Normalize(base, a), b)
    decreases |a|
  {
    forall p | p in a ensures p in a + b {}
    forall p | p in b ensures p in a + b {}
    if a == [] {
      assert a + b == b;
    } else {
      assert (a + b)[1..] == a[1..] + b;
      var c := a[0];
      assert c == (a + b)[0];
      if c == "" || c == "." {
        NormalizeAppend(base, a[1..], b);
      } else if c == ".." {
        NormalizeAppend(Parent(base), a[1..], b);
      } else {
        NormalizeAppend(base + [c], a[1..], b);
      }
    }
  }

  lemma {:induction false} NormalizeProper(base: seq<string>, cs: seq<string>)
    requires AllProper(base) && AllProper(cs)
    ensures Normalize(base, cs) == base + cs
    decreases |cs|
  {
    if cs != [] {
      assert Proper(cs[0]);
      NormalizeProper(base + [cs[0]], cs[1..]);
      assert base + [cs[0]] + cs[1..] == base + cs;
    } else {
      assert base + cs == base;
    }
  }

  lemma NormalizeSkip(base: seq<string>, parts: seq<string>)
    requires AllProper(base)
    requires forall p | p in parts :: '/' !in p
    ensures Normalize(base, [""] + parts) == Normalize(base, parts)
    ensures Normalize(base, ["", ""]) == Normalize(base, [""]) == base
  {
    assert ([""] + parts)[1..] == parts;
    assert ["", ""][1..] == [""] && [""][1..] == [];
  }

  lemma SplitRender(cs: seq<string>)
    requires AllProper(cs)
    ensures Split(Render(cs), '/') == [""] + (if cs == [] then [""] else cs)
  {
    SplitConcat("", Join(cs, '/'), '/');
    assert "" + ['/'] + Join(cs, '/') == Render(cs);
    if cs != [] {
      SplitJoin(cs, '/');
    }
  }

  /** Reading back a rendered list gives the list. */
  lemma CompsRender(cs: seq<string>)
    requires AllProper(cs)
    ensures Comps(Render(cs)) == cs
  {
    SplitRender(cs);
    NormalizeSkip([], cs);
    NormalizeProper([], cs);
    assert [""] + [""] == ["", ""];
  }

  lemma RenderInjective(a: seq<string>, b: seq<string>)
    requires AllProper(a) && AllProper(b) && Render(a) == Render(b)
    ensures a == b
  {
    CompsRender(a);
    CompsRender(b);
  }

  lemma CleanIsClean(s: string)
    requires IsAbs(s)
    ensures IsClean(Clean(s)) && Comps(Clean(s)) == Comps(s)
  {
    CompsRender(Comps(s));
  }

  /** Joining walks the elements of b from a. */
  lemma CompsJoin(a: string, b: string)
    requires IsAbs(a)
    ensures JoinPath(a, b) == Render(Normalize(Comps(a), Split(b, '/')))
    ensures Comps(JoinPath(a, b)) == Normalize(Comps(a), Split(b, '/'))
  {
    SplitConcat(a, b, '/');
    assert a + "/" + b == a + ['/'] + b;
    NormalizeAppend([], Split(a, '/'), Split(b, '/'));
    CompsRender(Normalize(Comps(a), Split(b, '/')));
  }

  lemma JoinName(cs: seq<string>, c: string)
    requires AllProper(cs) && Proper(c)
    ensures JoinPath(Render(cs), c) == Render(cs + [c])
  {
    CompsRender(cs);
    CompsJoin(Render(cs), c);
    SplitWhole(c, '/');
    NormalizeProper(cs, [c]);
  }

  /** Joining a clean absolute path below a root appends its names. */
  lemma JoinRendered(root: string, cs: seq<string>)
    requires IsAbs(root) && AllProper(cs)
    ensures JoinPath(root, Render(cs)) == Render(Comps(root) + cs)
    ensures Comps(JoinPath(root, Render(cs))) == Comps(root) + cs
  {
    CompsJoin(root, Render(cs));
    SplitRender(cs);
    NormalizeSkip(Comps(root), cs);
    NormalizeProper(Comps(root), cs);
    assert [""] + [""] == ["", ""];
  }

  lemma DirRender(cs: seq<string>)
    requires AllProper(cs)
    ensures Dir(Render(cs)) == Render(Parent(cs))
  {
    SplitRender(cs);
    var parts := Split(Render(cs), '/');
    assert parts[..|parts| - 1] == [""] + Parent(cs);
    NormalizeSkip([], Parent(cs));
    NormalizeProper([], Parent(cs));
    assert [] + Parent(cs) == Parent(cs);
  }

  lemma BaseRender(cs: seq<string>)
    requires AllProper(cs) && cs != []
    ensures Base(Render(cs)) == cs[|cs| - 1]
  {
    SplitRender(cs);
    assert Proper(cs[|cs| - 1]);
  }

  /** Rel is split again by its caller, which gets back its steps. */
  lemma SplitRel(base: string, target: string)
    requires IsAbs(base) && IsAbs(target)
    ensures Split(Rel(base, target), '/') == RelParts(Comps(base), Comps(target))
  {
    var parts := RelParts(Comps(base), Comps(target));
    var target' := Comps(target);
    var k := CommonPrefix(Comps(base), target');
    forall p | p in parts ensures '/' !in p {
      assert p == "." || p == ".." || p in target'[k..];
      assert p in target' ==> Proper(p);
    }
    SplitJoin(parts, '/');
  }

  lemma RelBelow(base: seq<string>, cs: seq<string>)
    ensures RelParts(base, base + cs) == if cs == [] then ["."] else cs
  {
    var k := CommonPrefix(base, base + cs);
    assert (base + cs)[k..] == cs;
  }

  /** The string test is the prefix test on names: "/data" does not hold "/database". */
  lemma UnderIsPrefix(p: string, dir: string)
    requires IsClean(p) && IsClean(dir)
    ensures Under(p, dir) <==> Comps(dir) <= Comps(p)
  {
    var ps, ds := Comps(p), Comps(dir);
    if dir + "/" <= p {
      PrefixMeansBelow(p, dir);
    }
    if dir == "/" {
      CompsRender([]);
      assert Render([]) == "/";
    } else if ds <= ps && ds != ps {
      BelowMeansPrefix(ps, ds);
    }
  }

  lemma PrefixMeansBelow(p: string, dir: string)
    requires IsClean(p) && IsClean(dir) && dir + "/" <= p
    ensures Comps(dir) <= Comps(p)
  {
    var ps, ds, rest := Comps(p), Comps(dir), p[|dir| + 1..];
    assert Split(p, '/') == Split(dir, '/') + Split(rest, '/') by {
      assert p == dir + ['/'] + rest;
      SplitConcat(dir, rest, '/');
    }
    SplitRender(ps);
    SplitRender(ds);
    if ds != [] {
      TailPrefix(if ps == [] then [""] else ps, ds, Split(rest, '/'));
      assert Proper(ds[0]);
    }
  }

  lemma TailPrefix(a: seq<string>, b: seq<string>, rest: seq<string>)
    requires [""] + a == [""] + b + rest
    ensures b <= a
  {
    assert a == ([""] + a)[1..] == ([""] + b + rest)[1..] == b + rest;
  }

  lemma BelowMeansPrefix(ps: seq<string>, ds: seq<string>)
    requires ds <= ps && ds != ps && ds != []
    ensures Render(ds) + "/" <= Render(ps)
  {
    assert ps == ds + ps[|ds|..];
    JoinConcat(ds, ps[|ds|..], '/');
    assert Render(ps) == Render(ds) + "/" + Join(ps[|ds|..], '/');
  }
}
