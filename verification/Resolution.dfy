/** Symlink resolution below a root that plays "/" (pkg/volsource/resolve.go).

    Walk is pathname resolution as section 4.13 of POSIX.1-2017 describes it: a link is
    resolved completely, by a nested walk, before the walk goes on behind it. The loop
    of RealPath has no nesting: it splices the target of a link into its worklist. */
module Resolution {
  import opened Text
  import opened Paths
  import opened Optional
  import opened HostPolicy

  datatype Result<T> = Ok(value: T) | Err(error: Error)

  datatype Error =
    | NotExist
    | NotDirectory
    | TooManyLinks
    | LinkNotAllowed(dest: string)
    | Refused(verdict: Verdict)

  const MAX_SYMLINKS := 40

  // ---- the file system below the root ----

  datatype Node = Directory | File | Symlink(target: string)

  /** The entries below the root, by their names from it; [] is the root itself. */
  type Tree = map<seq<string>, Node>

  ghost predicate WellFormed(t: Tree) {
    forall cs | cs in t ::
      && AllProper(cs)
      && (cs == [] ==> t[cs].Directory?)
      && (cs != [] ==> Parent(cs) in t && t[Parent(cs)].Directory?)
  }

  /** Every step down to cs exists and none is a symlink. */
  ghost predicate Resolved(t: Tree, cs: seq<string>) {
    forall k | 0 < k <= |cs| :: cs[..k] in t && !t[cs[..k]].Symlink?
  }

  predicate IsDirectory(t: Tree, cs: seq<string>) {
    cs == [] || (cs in t && t[cs].Directory?)
  }

  /** Names of path below root. */
  function Below(root: string, path: string): seq<string>
    requires IsAbs(root) && IsAbs(path) && Comps(root) <= Comps(path)
  {
    Comps(path)[|Comps(root)|..]
  }

  /** os.Lstat. Asking only behind a resolved parent means that the kernel follows no
      link on the way to the entry. */
  function Lstat(t: Tree, root: string, path: string): Option<Node>
    requires IsAbs(root) && IsAbs(path) && Comps(root) <= Comps(path)
    requires Resolved(t, Parent(Below(root, path)))
  {
    var cs := Below(root, path);
    if cs in t then Some(t[cs]) else None
  }

  // ---- recursive resolution ----

  datatype Walked = Reached(at: seq<string>, left: nat) | Failed(error: Error)

  /** Where a link in base points, lexically. */
  function LinkBase(base: seq<string>, target: string): seq<string> {
    if IsAbs(target) then [] else base
  }

  function LinkDest(base: seq<string>, target: string): (cs: seq<string>)
    requires AllProper(base)
    ensures AllProper(cs)
  {
    Normalize(LinkBase(base, target), Split(target, '/'))
  }

  predicate MayFollow(hp: Option<HostPaths>, dest: seq<string>) {
    hp.Some? ==> Reachable(hp.value, Render(dest))
  }

  /** Resolve parts from base, following at most budget links. A strict walk refuses to
      leave a regular file through an empty element, "." or "..", as POSIX does. */
  function Walk(t: Tree, strict: bool, hp: Option<HostPaths>,
                base: seq<string>, parts: seq<string>, budget: nat): (w: Walked)
    requires AllProper(base)
    requires forall p | p in parts :: '/' !in p
    ensures w.Reached? ==> w.left <= budget && AllProper(w.at)
    decreases budget, |parts|
  {
    if parts == [] then Reached(base, budget)
    else
      var c, rest := parts[0], parts[1..];
      if c == "" || c == "." || c == ".." then
        if strict && !IsDirectory(t, base) then Failed(NotDirectory)
        else Walk(t, strict, hp, if c == ".." then Parent(base) else base, rest, budget)
      else if base + [c] !in t then Failed(NotExist)
      else if !t[base + [c]].Symlink? then Walk(t, strict, hp, base + [c], rest, budget)
      else
        var target := t[base + [c]].target;
        if budget == 0 then Failed(TooManyLinks)
        else if !MayFollow(hp, LinkDest(base, target)) then Failed(LinkNotAllowed(Render(LinkDest(base, target))))
        else
          match Walk(t, strict, hp, LinkBase(base, target), Split(target, '/'), budget - 1)
          case Failed(e) => Failed(e)
          case Reached(at, left) => Walk(t, strict, hp, at, rest, left)
  }

  function Then(t: Tree, strict: bool, hp: Option<HostPaths>, w: Walked, parts: seq<string>): Walked
    requires w.Reached? ==> AllProper(w.at)
    requires forall p | p in parts :: '/' !in p
  {
    if w.Reached? then Walk(t, strict, hp, w.at, parts, w.left) else w
  }

  /** Resolving a ++ b is resolving a and then b, link counts adding up. */
  lemma {:induction false} WalkAppend(t: Tree, strict: bool, hp: Option<HostPaths>,
                                      base: seq<string>, a: seq<string>, b: seq<string>, budget: nat)
    requires AllProper(base)
    requires (forall p | p in a :: '/' !in p) && (forall p | p in b :: '/' !in p)
    ensures Walk(t, strict, hp, base, a + b, budget)
         == Then(t, strict, hp, Walk(t, strict, hp, base, a, budget), b)
    decreases budget, |a|
  {
    if a == [] {
      assert a + b == b;
    } else {
      var c, rest := a[0], a[1..];
      assert (a + b)[0] == c && (a + b)[1..] == rest + b;
      if c == "" || c == "." || c == ".." {
        WalkAppend(t, strict, hp, if c == ".." then Parent(base) else base, rest, b, budget);
      } else if base + [c] in t && !t[base + [c]].Symlink? {
        WalkAppend(t, strict, hp, base + [c], rest, b, budget);
      } else if base + [c] in t && budget > 0 {
        var target := t[base + [c]].target;
        var w := Walk(t, strict, hp, LinkBase(base, target), Split(target, '/'), budget - 1);
        if MayFollow(hp, LinkDest(base, target)) && w.Reached? {
          WalkAppend(t, strict, hp, w.at, rest, b, w.left);
        }
      }
    }
  }

  lemma ResolvedParent(t: Tree, cs: seq<string>)
    requires Resolved(t, cs)
    ensures Resolved(t, Parent(cs))
  {
    forall k | 0 < k <= |Parent(cs)| ensures Parent(cs)[..k] in t && !t[Parent(cs)[..k]].Symlink? {
      assert Parent(cs)[..k] == cs[..k];
    }
  }

  lemma ResolvedChild(t: Tree, cs: seq<string>, c: string)
    requires Resolved(t, cs) && cs + [c] in t && !t[cs + [c]].Symlink?
    ensures Resolved(t, cs + [c])
  {
    forall k | 0 < k <= |cs| + 1 ensures (cs + [c])[..k] in t && !t[(cs + [c])[..k]].Symlink? {
      assert k <= |cs| ==> (cs + [c])[..k] == cs[..k];
      assert k == |cs| + 1 ==> (cs + [c])[..k] == cs + [c];
    }
  }

  /** A walk ends at a path with no symlink left in it. */
  lemma {:induction false} WalkEndsResolved(t: Tree, strict: bool, hp: Option<HostPaths>,
                                            base: seq<string>, parts: seq<string>, budget: nat)
    requires AllProper(base) && Resolved(t, base)
    requires forall p | p in parts :: '/' !in p
    ensures var w := Walk(t, strict, hp, base, parts, budget); w.Reached? ==> Resolved(t, w.at)
    decreases budget, |parts|
  {
    if parts != [] {
      var c, rest := parts[0], parts[1..];
      if c == "" || c == "." || c == ".." {
        ResolvedParent(t, base);
        WalkEndsResolved(t, strict, hp, if c == ".." then Parent(base) else base, rest, budget);
      } else if base + [c] in t && !t[base + [c]].Symlink? {
        ResolvedChild(t, base, c);
        WalkEndsResolved(t, strict, hp, base + [c], rest, budget);
      } else if base + [c] in t && budget > 0 {
        var target := t[base + [c]].target;
        WalkEndsResolved(t, strict, hp, LinkBase(base, target), Split(target, '/'), budget - 1);
        var w := Walk(t, strict, hp, LinkBase(base, target), Split(target, '/'), budget - 1);
        if w.Reached? {
          WalkEndsResolved(t, strict, hp, w.at, rest, w.left);
        }
      }
    }
  }

  /** A resolved path is walked as it stands, without spending a link. */
  lemma {:induction false} WalkResolvedPath(t: Tree, strict: bool, hp: Option<HostPaths>,
                                            base: seq<string>, cs: seq<string>, budget: nat)
    requires AllProper(base + cs) && Resolved(t, base + cs)
    ensures forall p | p in cs :: '/' !in p
    ensures Walk(t, strict, hp, base, cs, budget) == Reached(base + cs, budget)
    decreases |cs|
  {
    forall p | p in cs ensures Proper(p) {
      assert p in base + cs;
    }
    forall p | p in base ensures Proper(p) {
      assert p in base + cs;
    }
    if cs == [] {
      assert base + cs == base;
    } else {
      var k := |base| + 1;
      assert (base + cs)[..k] == base + [cs[0]];
      assert (base + cs)[..k] in t && !t[(base + cs)[..k]].Symlink?;
      assert Proper(cs[0]);
      assert base + [cs[0]] + cs[1..] == base + cs;
      WalkResolvedPath(t, strict, hp, base + [cs[0]], cs[1..], budget);
    }
  }

  /** What POSIX resolves, the lenient walk resolves to the same place. */
  lemma {:induction false} StrictImpliesLenient(t: Tree, hp: Option<HostPaths>,
                                                base: seq<string>, parts: seq<string>, budget: nat)
    requires AllProper(base)
    requires forall p | p in parts :: '/' !in p
    ensures var w := Walk(t, true, hp, base, parts, budget);
            w.Reached? ==> Walk(t, false, hp, base, parts, budget) == w
    decreases budget, |parts|
  {
    if parts != [] {
      var c, rest := parts[0], parts[1..];
      if c == "" || c == "." || c == ".." {
        StrictImpliesLenient(t, hp, if c == ".." then Parent(base) else base, rest, budget);
      } else if base + [c] in t && !t[base + [c]].Symlink? {
        StrictImpliesLenient(t, hp, base + [c], rest, budget);
      } else if base + [c] in t && budget > 0 {
        var target := t[base + [c]].target;
        StrictImpliesLenient(t, hp, LinkBase(base, target), Split(target, '/'), budget - 1);
        var w := Walk(t, true, hp, LinkBase(base, target), Split(target, '/'), budget - 1);
        if w.Reached? {
          StrictImpliesLenient(t, hp, w.at, rest, w.left);
        }
      }
    }
  }

  /** The walk leaves something that is no directory through an empty element, "." or "..". */
  ghost predicate LeavesFile(t: Tree, hp: Option<HostPaths>, base: seq<string>, parts: seq<string>, budget: nat)
    requires AllProper(base)
    requires forall p | p in parts :: '/' !in p
    decreases budget, |parts|
  {
    if parts == [] then false
    else
      var c, rest := parts[0], parts[1..];
      if c == "" || c == "." || c == ".." then
        !IsDirectory(t, base) || LeavesFile(t, hp, if c == ".." then Parent(base) else base, rest, budget)
      else if base + [c] !in t then false
      else if !t[base + [c]].Symlink? then LeavesFile(t, hp, base + [c], rest, budget)
      else if budget == 0 || !MayFollow(hp, LinkDest(base, t[base + [c]].target)) then false
      else
        var from, steps := LinkBase(base, t[base + [c]].target), Split(t[base + [c]].target, '/');
        var w := Walk(t, false, hp, from, steps, budget - 1);
        LeavesFile(t, hp, from, steps, budget - 1) || (w.Reached? && LeavesFile(t, hp, w.at, rest, w.left))
  }

  /** Path by path: the lenient walk is the strict one unless it leaves a regular file on its
      way, and then the strict one fails for just that. */
  lemma {:induction false} StrictUnlessLeavingAFile(t: Tree, hp: Option<HostPaths>,
                                                    base: seq<string>, parts: seq<string>, budget: nat)
    requires AllProper(base)
    requires forall p | p in parts :: '/' !in p
    ensures Walk(t, true, hp, base, parts, budget)
         == if LeavesFile(t, hp, base, parts, budget) then Failed(NotDirectory)
            else Walk(t, false, hp, base, parts, budget)
    ensures Walk(t, false, hp, base, parts, budget) != Failed(NotDirectory)
    decreases budget, |parts|
  {
    if parts != [] {
      var c, rest := parts[0], parts[1..];
      if c == "" || c == "." || c == ".." {
        StrictUnlessLeavingAFile(t, hp, if c == ".." then Parent(base) else base, rest, budget);
      } else if base + [c] in t && !t[base + [c]].Symlink? {
        StrictUnlessLeavingAFile(t, hp, base + [c], rest, budget);
      } else if base + [c] in t && budget > 0 {
        var from, steps := LinkBase(base, t[base + [c]].target), Split(t[base + [c]].target, '/');
        StrictUnlessLeavingAFile(t, hp, from, steps, budget - 1);
        var w := Walk(t, false, hp, from, steps, budget - 1);
        if w.Reached? {
          StrictUnlessLeavingAFile(t, hp, w.at, rest, w.left);
        }
      }
    }
  }

  /** So RealPath gives what POSIX gives, failures included, exactly for the paths on which it
      leaves no regular file. */
  lemma AgreesOnPathIff(t: Tree, hp: Option<HostPaths>, parts: seq<string>)
    requires forall p | p in parts :: '/' !in p
    ensures Walk(t, false, hp, [], parts, MAX_SYMLINKS) == Walk(t, true, hp, [], parts, MAX_SYMLINKS)
       <==> !LeavesFile(t, hp, [], parts, MAX_SYMLINKS)
  {
    StrictUnlessLeavingAFile(t, hp, [], parts, MAX_SYMLINKS);
  }

  ghost predicate NoRegularFiles(t: Tree) {
    forall cs | cs in t :: !t[cs].File?
  }

  lemma {:induction false} StrictIsLenientOnDirectories(t: Tree, hp: Option<HostPaths>,
                                                        base: seq<string>, parts: seq<string>, budget: nat)
    requires NoRegularFiles(t) && AllProper(base) && Resolved(t, base)
    requires forall p | p in parts :: '/' !in p
    ensures Walk(t, true, hp, base, parts, budget) == Walk(t, false, hp, base, parts, budget)
    decreases budget, |parts|
  {
    if parts != [] {
      var c, rest := parts[0], parts[1..];
      assert IsDirectory(t, base) by {
        assert base[..|base|] == base;
      }
      if c == "" || c == "." || c == ".." {
        ResolvedParent(t, base);
        StrictIsLenientOnDirectories(t, hp, if c == ".." then Parent(base) else base, rest, budget);
      } else if base + [c] in t && !t[base + [c]].Symlink? {
        ResolvedChild(t, base, c);
        StrictIsLenientOnDirectories(t, hp, base + [c], rest, budget);
      } else if base + [c] in t && budget > 0 {
        var target := t[base + [c]].target;
        StrictIsLenientOnDirectories(t, hp, LinkBase(base, target), Split(target, '/'), budget - 1);
        WalkEndsResolved(t, true, hp, LinkBase(base, target), Split(target, '/'), budget - 1);
        var w := Walk(t, true, hp, LinkBase(base, target), Split(target, '/'), budget - 1);
        if w.Reached? {
          StrictIsLenientOnDirectories(t, hp, w.at, rest, w.left);
        }
      }
    }
  }

  lemma {:induction false} EntryIsResolved(t: Tree, cs: seq<string>)
    requires WellFormed(t) && cs in t && !t[cs].Symlink?
    ensures Resolved(t, cs)
    decreases |cs|
  {
    if cs != [] {
      EntryIsResolved(t, Parent(cs));
      assert Parent(cs) + [cs[|cs| - 1]] == cs;
      ResolvedChild(t, Parent(cs), cs[|cs| - 1]);
    }
  }

  ghost predicate AgreesWithPosix(t: Tree, hp: Option<HostPaths>) {
    forall parts: seq<string>, budget: nat | (forall p | p in parts :: '/' !in p) ::
      Walk(t, false, hp, [], parts, budget) == Walk(t, true, hp, [], parts, budget)
  }

  /** The loop never checks that what it leaves through ".." is a directory, so it agrees
      with POSIX on every worklist exactly when the tree holds no regular file. */
  lemma AgreesWithPosixIff(t: Tree, hp: Option<HostPaths>)
    requires WellFormed(t)
    ensures AgreesWithPosix(t, hp) <==> NoRegularFiles(t)
  {
    if NoRegularFiles(t) {
      forall parts: seq<string>, budget: nat | forall p | p in parts :: '/' !in p
        ensures Walk(t, false, hp, [], parts, budget) == Walk(t, true, hp, [], parts, budget)
      {
        StrictIsLenientOnDirectories(t, hp, [], parts, budget);
      }
    } else {
      var cs :| cs in t && t[cs].File?;
      LeavingAFile(t, hp, cs);
      assert forall p | p in cs + [".."] :: '/' !in p;
    }
  }

  /** "file/.." is accepted, while POSIX refuses it. */
  lemma LeavingAFile(t: Tree, hp: Option<HostPaths>, cs: seq<string>)
    requires WellFormed(t) && cs in t && t[cs].File?
    ensures forall p | p in cs + [".."] :: '/' !in p
    ensures Walk(t, false, hp, [], cs + [".."], 0) == Reached(Parent(cs), 0)
    ensures Walk(t, true, hp, [], cs + [".."], 0) == Failed(NotDirectory)
  {
    EntryIsResolved(t, cs);
    assert [] + cs == cs;
    WalkResolvedPath(t, false, hp, [], cs, 0);
    WalkResolvedPath(t, true, hp, [], cs, 0);
    WalkAppend(t, false, hp, [], cs, [".."], 0);
    WalkAppend(t, true, hp, [], cs, [".."], 0);
    assert [".."][1..] == [];
  }

  // ---- the early refusal of links ----

  /** The lexical destinations of the links a walk without a policy follows, in order. */
  ghost function Dests(t: Tree, base: seq<string>, parts: seq<string>, budget: nat): seq<seq<string>>
    requires AllProper(base)
    requires forall p | p in parts :: '/' !in p
    decreases budget, |parts|
  {
    if parts == [] then []
    else
      var c, rest := parts[0], parts[1..];
      if c == "" || c == "." || c == ".." then Dests(t, if c == ".." then Parent(base) else base, rest, budget)
      else if base + [c] !in t then []
      else if !t[base + [c]].Symlink? then Dests(t, base + [c], rest, budget)
      else if budget == 0 then []
      else
        var target := t[base + [c]].target;
        var inner := Walk(t, false, None, LinkBase(base, target), Split(target, '/'), budget - 1);
        [LinkDest(base, target)]
        + Dests(t, LinkBase(base, target), Split(target, '/'), budget - 1)
        + (if inner.Reached? then Dests(t, inner.at, rest, inner.left) else [])
  }

  /** A host path policy only removes walks: one succeeds exactly when it succeeds without
      the policy and every link on the way points, lexically, where the policy may lead. */
  lemma {:induction false} PolicyOnlyRefuses(t: Tree, h: HostPaths,
    base: seq<string>, parts: seq<string>, budget: nat, at: seq<string>, left: nat)
    requires AllProper(base)
    requires forall p | p in parts :: '/' !in p
    ensures Walk(t, false, Some(h), base, parts, budget) == Reached(at, left)
       <==> && Walk(t, false, None, base, parts, budget) == Reached(at, left)
            && (forall d | d in Dests(t, base, parts, budget) :: Reachable(h, Render(d)))
    decreases budget, |parts|
  {
    if parts != [] {
      var c, rest := parts[0], parts[1..];
      if c == "" || c == "." || c == ".." {
        PolicyOnlyRefuses(t, h, if c == ".." then Parent(base) else base, rest, budget, at, left);
      } else if base + [c] in t && !t[base + [c]].Symlink? {
        PolicyOnlyRefuses(t, h, base + [c], rest, budget, at, left);
      } else if base + [c] in t && budget > 0 {
        PolicyOnlyRefusesLink(t, h, base, parts, budget, at, left);
      }
    }
  }

  lemma {:induction false} PolicyOnlyRefusesLink(t: Tree, h: HostPaths,
    base: seq<string>, parts: seq<string>, budget: nat, at: seq<string>, left: nat)
    requires AllProper(base) && parts != [] && budget > 0
    requires forall p | p in parts :: '/' !in p
    requires parts[0] != "" && parts[0] != "." && parts[0] != ".."
    requires base + [parts[0]] in t && t[base + [parts[0]]].Symlink?
    ensures Walk(t, false, Some(h), base, parts, budget) == Reached(at, left)
       <==> && Walk(t, false, None, base, parts, budget) == Reached(at, left)
            && (forall d | d in Dests(t, base, parts, budget) :: Reachable(h, Render(d)))
    decreases budget, |parts|, 0
  {
    var rest, target := parts[1..], t[base + [parts[0]]].target;
    var from, steps := LinkBase(base, target), Split(target, '/');
    var bare := Walk(t, false, None, from, steps, budget - 1);
    var held := Walk(t, false, Some(h), from, steps, budget - 1);
    var first, second := Dests(t, from, steps, budget - 1), if bare.Reached? then Dests(t, bare.at, rest, bare.left)
        else [];
    assert Dests(t, base, parts, budget) == [LinkDest(base, target)] + first + second;
    if bare.Reached? {
      PolicyOnlyRefuses(t, h, from, steps, budget - 1, bare.at, bare.left);
      PolicyOnlyRefuses(t, h, bare.at, rest, bare.left, at, left);
    }
    if held.Reached? {
      PolicyOnlyRefuses(t, h, from, steps, budget - 1, held.at, held.left);
    }
    forall d ensures d in [LinkDest(base, target)] + first + second
                <==> d == LinkDest(base, target) || d in first || d in second {}
  }

  // ---- RealPath ----

  datatype SourcePath = SourcePath(
    name: string, path: string, csiBased: bool, root: string, hostPaths: Option<HostPaths>)

  predicate Rooted(p: SourcePath) {
    p.root != "" ==> IsAbs(p.root) && IsAbs(p.path)
  }

  /** What the loop computes, in terms of the recursive walk. */
  function RealPathSpec(p: SourcePath, t: Tree): Result<string>
    requires Rooted(p)
  {
    if p.root == "" then Ok(p.path)
    else
      match Walk(t, false, p.hostPaths, [], Split(Rel(p.root, p.path), '/'), MAX_SYMLINKS)
      case Failed(e) => Err(e)
      case Reached(at, _) =>
        if p.hostPaths.Some? && Check(p.hostPaths.value, Render(at)) != Admitted
        then Err(Refused(Check(p.hostPaths.value, Render(at))))
        else Ok(JoinPath(p.root, Render(at)))
  }

  /** SourcePath.RealPath: a worklist loop. It refines the recursive walk, failures
      included, on every tree and every path. */
  method RealPath(p: SourcePath, t: Tree) returns (r: Result<string>)
    requires Rooted(p)
    ensures r == RealPathSpec(p, t)
  {
    if p.root == "" {
      return Ok(p.path);
    }
    var pending := Split(Rel(p.root, p.path), '/');
    ghost var whole := Walk(t, false, p.hostPaths, [], pending, MAX_SYMLINKS);
    ghost var at: seq<string> := [];
    var cur := "/";
    var links := 0;
    while |pending| > 0
      invariant forall c | c in pending :: '/' !in c
      invariant 0 <= links <= MAX_SYMLINKS
      invariant AllProper(at) && Resolved(t, at) && cur == Render(at)
      invariant Walk(t, false, p.hostPaths, at, pending, MAX_SYMLINKS - links) == whole
      decreases MAX_SYMLINKS - links, |pending|
    {
      var c := pending[0];
      pending := pending[1..];
      if c == "" || c == "." {
        continue;
      }
      if c == ".." {
        DirRender(at);
        ResolvedParent(t, at);
        cur := Dir(cur);
        at := Parent(at);
        continue;
      }
      var next, fi := LookAt(p, t, cur, c, at);
      if fi.None? {
        return Err(NotExist);
      }
      if !fi.value.Symlink? {
        ResolvedChild(t, at, c);
        cur := next;
        at := at + [c];
        continue;
      }
      links := links + 1;
      if links > MAX_SYMLINKS {
        return Err(TooManyLinks);
      }
      var target := fi.value.target;
      if IsAbs(target) {
        cur := "/";
      }
      at := LinkBase(at, target);
      var dest := JoinPath(cur, target);
      DestOfLink(at, target);
      if p.hostPaths.Some? && !Reachable(p.hostPaths.value, dest) {
        return Err(LinkNotAllowed(dest));
      }
      WalkAppend(t, false, p.hostPaths, at, Split(target, '/'), pending, MAX_SYMLINKS - links);
      pending := Split(target, '/') + pending;
    }
    if p.hostPaths.Some? {
      var verdict := Check(p.hostPaths.value, cur);
      if verdict != Admitted {
        return Err(Refused(verdict));
      }
    }
    return Ok(JoinPath(p.root, cur));
  }

  /** The next entry and what is there. */
  method LookAt(p: SourcePath, t: Tree, cur: string, c: string, ghost at: seq<string>)
    returns (next: string, fi: Option<Node>)
    requires IsAbs(p.root) && IsAbs(cur) && AllProper(at) && Resolved(t, at) && cur == Render(at) && Proper(c)
    ensures next == Render(at + [c]) && fi == if at + [c] in t then Some(t[at + [c]]) else None
  {
    JoinName(at, c);
    next := JoinPath(cur, c);
    CompsRender(at + [c]);
    JoinRendered(p.root, at + [c]);
    assert Below(p.root, JoinPath(p.root, next)) == at + [c];
    assert Parent(at + [c]) == at;
    fi := Lstat(t, p.root, JoinPath(p.root, next));
  }

  lemma DestOfLink(from: seq<string>, target: string)
    requires AllProper(from)
    ensures JoinPath(Render(from), target) == Render(Normalize(from, Split(target, '/')))
  {
    CompsRender(from);
    CompsJoin(Render(from), target);
  }

  /** Without a policy, whenever POSIX resolution with the root as "/" succeeds within the
      link limit, RealPath returns that place. */
  lemma RealPathFollowsPosix(p: SourcePath, t: Tree, cs: seq<string>, at: seq<string>, left: nat)
    requires IsAbs(p.root) && AllProper(cs) && p.path == Render(Comps(p.root) + cs) && p.hostPaths.None?
    requires Walk(t, true, None, [], cs, MAX_SYMLINKS) == Reached(at, left)
    ensures RealPathSpec(p, t) == Ok(JoinPath(p.root, Render(at)))
  {
    WorklistOf(p.root, cs);
    StrictImpliesLenient(t, None, [], cs, MAX_SYMLINKS);
    WalkDot(t, false, None);
  }

  lemma WorklistOf(root: string, cs: seq<string>)
    requires IsAbs(root) && AllProper(cs)
    ensures Split(Rel(root, Render(Comps(root) + cs)), '/') == if cs == [] then ["."] else cs
  {
    var path := Render(Comps(root) + cs);
    assert AllProper(Comps(root) + cs);
    CompsRender(Comps(root) + cs);
    SplitRel(root, path);
    RelBelow(Comps(root), cs);
  }

  lemma WalkDot(t: Tree, strict: bool, hp: Option<HostPaths>)
    ensures Walk(t, strict, hp, [], ["."], MAX_SYMLINKS) == Reached([], MAX_SYMLINKS)
  {
    assert ["."][1..] == [];
  }

  /** Anything RealPath returns lies below the root, every step to it exists and is no
      symlink, and resolving it again changes nothing. */
  lemma RealPathIsCanonical(p: SourcePath, t: Tree) returns (at: seq<string>)
    requires Rooted(p) && p.root != ""
    requires RealPathSpec(p, t).Ok?
    ensures AllProper(at) && Resolved(t, at)
    ensures RealPathSpec(p, t) == Ok(Render(Comps(p.root) + at))
    ensures RealPathSpec(p.(path := Render(Comps(p.root) + at)), t) == RealPathSpec(p, t)
  {
    var parts := Split(Rel(p.root, p.path), '/');
    WalkEndsResolved(t, false, p.hostPaths, [], parts, MAX_SYMLINKS);
    at := Walk(t, false, p.hostPaths, [], parts, MAX_SYMLINKS).at;
    JoinRendered(p.root, at);
    WorklistOf(p.root, at);
    assert [] + at == at;
    WalkResolvedPath(t, false, p.hostPaths, [], at, MAX_SYMLINKS);
    WalkDot(t, false, p.hostPaths);
  }

  /** Resolver.hostPath. */
  function HostPathSource(h: HostPaths, name: string, host: string): Result<SourcePath>
    requires IsAbs(h.root)
  {
    var clean := JoinPath("/", host);
    var verdict := Check(h, clean);
    if verdict != Admitted then Err(Refused(verdict))
    else Ok(SourcePath(name, JoinPath(h.root, clean), false, h.root, Some(h)))
  }

  /** Every hostPath source that is accepted ends inside an allowed directory and outside
      every denied one, and is what resolution without any policy reaches; if no regular
      file is around, that is what POSIX resolution reaches. */
  lemma AcceptedHostPathIsPermitted(h: HostPaths, t: Tree, name: string, host: string) returns (at: seq<string>)
    requires Valid(h)
    requires HostPathSource(h, name, host).Ok?
    requires RealPathSpec(HostPathSource(h, name, host).value, t).Ok?
    ensures RealPathSpec(HostPathSource(h, name, host).value, t) == Ok(Render(Comps(h.root) + at))
    ensures AllProper(at) && Resolved(t, at) && Permitted(h, at)
    ensures exists left: nat :: Walk(t, false, None, [], Comps(JoinPath("/", host)), MAX_SYMLINKS) == Reached(at, left)
    ensures NoRegularFiles(t) ==>
              exists left: nat :: Walk(t, true, None, [], Comps(JoinPath("/", host)), MAX_SYMLINKS) == Reached(at, left)
  {
    var p := HostPathSource(h, name, host).value;
    CompsJoin("/", host);
    var cs := Comps(JoinPath("/", host));
    assert JoinPath("/", host) == Render(cs);
    JoinRendered(h.root, cs);
    WorklistOf(h.root, cs);
    WalkDot(t, false, Some(h));
    assert Walk(t, false, Some(h), [], cs, MAX_SYMLINKS)
        == Walk(t, false, Some(h), [], Split(Rel(p.root, p.path), '/'), MAX_SYMLINKS);
    var w := Walk(t, false, Some(h), [], cs, MAX_SYMLINKS);
    at := w.at;
    WalkEndsResolved(t, false, Some(h), [], cs, MAX_SYMLINKS);
    JoinRendered(h.root, at);
    CheckIsContainment(h, at);
    PolicyOnlyRefuses(t, h, [], cs, MAX_SYMLINKS, at, w.left);
    if NoRegularFiles(t) {
      StrictIsLenientOnDirectories(t, None, [], cs, MAX_SYMLINKS);
    }
  }

  const DETOUR: Tree := map[
    ["a"] := Directory, ["a", "l"] := Symlink("/b/m"),
    ["b"] := Directory, ["b", "m"] := Symlink("/a")]

  const ONLY_A := HostPaths("/r", ["/a"], [])

  /** The early refusal is lexical, so acceptance is not complete: /a/l -> /b/m -> /a ends
      in the only allowed directory, yet is refused because /b/m is outside it. */
  lemma EarlyRefusalIsIncomplete()
    ensures Valid(ONLY_A) && Permitted(ONLY_A, ["a"])
    ensures Walk(DETOUR, true, None, [], ["a", "l"], MAX_SYMLINKS) == Reached(["a"], MAX_SYMLINKS - 2)
    ensures Walk(DETOUR, false, Some(ONLY_A), [], ["a", "l"], MAX_SYMLINKS) == Failed(LinkNotAllowed("/b/m"))
  {
    DetourText();
    assert Inside(["a"], "/a");
    WalkDetour(DETOUR);
    DetourRefused(DETOUR);
  }

  lemma DetourText()
    ensures Split("/b/m", '/') == ["", "b", "m"] && Render(["b", "m"]) == "/b/m"
    ensures Split("/a", '/') == ["", "a"] && IsClean("/a") && Comps("/a") == ["a"]
    ensures Valid(ONLY_A) && !Reachable(ONLY_A, "/b/m")
  {
    TwoNames("b", "m");
    assert "/" + "b" + "/" + "m" == "/b/m";
    OnlyA();
  }

  lemma OnlyA()
    ensures Split("/a", '/') == ["", "a"] && IsClean("/a") && Comps("/a") == ["a"]
    ensures Valid(ONLY_A) && !Reachable(ONLY_A, "/b/m")
  {
    OneName("a");
    OneName("r");
    assert "/b/m"[1] == 'b' && "/a"[1] == 'a' && "/a/"[1] == 'a';
  }

  lemma TwoNames(c: string, d: string)
    requires Proper(c) && Proper(d)
    ensures Render([c, d]) == "/" + c + "/" + d && Split("/" + c + "/" + d, '/') == ["", c, d]
  {
    assert [c, d][1..] == [d];
    assert Join([c, d], '/') == c + ['/'] + d;
    assert Render([c, d]) == "/" + c + "/" + d;
    SplitRender([c, d]);
    assert [""] + [c, d] == ["", c, d];
  }

  lemma OneName(c: string)
    requires Proper(c)
    ensures Split("/" + c, '/') == ["", c] && IsClean("/" + c) && Comps("/" + c) == [c]
  {
    SplitRender([c]);
    CompsRender([c]);
    assert Render([c]) == "/" + c;
  }

  predicate Leads(t: Tree, cs: seq<string>, node: Node) {
    cs in t && t[cs] == node
  }

  lemma WalkDetour(t: Tree)
    requires Leads(t, ["a"], Directory) && Leads(t, ["a", "l"], Symlink("/b/m")) && Leads(t, ["b"], Directory)
             && Leads(t, ["b", "m"], Symlink("/a"))
    requires Split("/b/m", '/') == ["", "b", "m"] && Split("/a", '/') == ["", "a"]
    ensures Walk(t, true, None, [], ["a", "l"], MAX_SYMLINKS) == Reached(["a"], MAX_SYMLINKS - 2)
  {
    assert [] + ["a"] == ["a"] && ["a"] + ["l"] == ["a", "l"] && [] + ["b"] == ["b"] && ["b"] + ["m"] == ["b", "m"];
    assert ["a", "l"][1..] == ["l"] && ["l"][1..] == [] && ["a"][1..] == [] && ["m"][1..] == [];
    assert ["", "b", "m"][1..] == ["b", "m"] && ["b", "m"][1..] == ["m"] && ["", "a"][1..] == ["a"];
    assert Walk(t, true, None, [], ["", "a"], MAX_SYMLINKS - 2) == Reached(["a"], MAX_SYMLINKS - 2) by {
      assert Walk(t, true, None, [], ["a"], MAX_SYMLINKS - 2) == Reached(["a"], MAX_SYMLINKS - 2);
    }
    assert Walk(t, true, None, ["b"], ["m"], MAX_SYMLINKS - 1) == Reached(["a"], MAX_SYMLINKS - 2);
    assert Walk(t, true, None, [], ["b", "m"], MAX_SYMLINKS - 1) == Reached(["a"], MAX_SYMLINKS - 2);
    assert Walk(t, true, None, [], ["", "b", "m"], MAX_SYMLINKS - 1) == Reached(["a"], MAX_SYMLINKS - 2);
    assert Walk(t, true, None, ["a"], ["l"], MAX_SYMLINKS) == Reached(["a"], MAX_SYMLINKS - 2);
  }

  lemma AbsoluteDest(base: seq<string>, target: string, cs: seq<string>)
    requires AllProper(base) && AllProper(cs) && IsAbs(target) && Split(target, '/') == [""] + cs
    ensures LinkDest(base, target) == cs
  {
    NormalizeSkip([], cs);
    NormalizeProper([], cs);
    assert [] + cs == cs;
  }

  lemma DetourRefused(t: Tree)
    requires Leads(t, ["a"], Directory) && Leads(t, ["a", "l"], Symlink("/b/m"))
    requires Split("/b/m", '/') == ["", "b", "m"] && Render(["b", "m"]) == "/b/m"
    requires !Reachable(ONLY_A, "/b/m")
    ensures Walk(t, false, Some(ONLY_A), [], ["a", "l"], MAX_SYMLINKS) == Failed(LinkNotAllowed("/b/m"))
  {
    LinkRefused(t);
    assert [] + ["a"] == ["a"] && ["a", "l"][1..] == ["l"];
  }

  lemma LinkRefused(t: Tree)
    requires Leads(t, ["a", "l"], Symlink("/b/m")) && !Reachable(ONLY_A, "/b/m")
    requires Split("/b/m", '/') == ["", "b", "m"] && Render(["b", "m"]) == "/b/m"
    ensures Walk(t, false, Some(ONLY_A), ["a"], ["l"], MAX_SYMLINKS) == Failed(LinkNotAllowed("/b/m"))
  {
    assert ["", "b", "m"] == [""] + ["b", "m"];
    AbsoluteDest(["a"], "/b/m", ["b", "m"]);
    assert ["a"] + ["l"] == ["a", "l"];
    assert !MayFollow(Some(ONLY_A), ["b", "m"]);
  }

  // ---- the containment assertion ----

  /** assertContained. */
  predicate Contained(root: string, path: string)
    requires IsAbs(root) && IsAbs(path)
  {
    Clean(path) == Clean(root) || Clean(root) + "/" <= Clean(path)
  }

  /** The assertion is containment below every root but "/", below which it lets nothing
      through except "/" itself. */
  lemma ContainedIff(root: string, path: string)
    requires IsAbs(root) && IsAbs(path)
    ensures Contained(root, path) <==>
            if Comps(root) == [] then Comps(path) == [] else Comps(root) <= Comps(path)
  {
    CleanIsClean(root);
    CleanIsClean(path);
    UnderIsPrefix(Clean(path), Clean(root));
    assert Render([]) == "/";
    if Comps(root) == [] {
      if Comps(path) != [] {
        NoDoubleSlash(Comps(path));
      }
    } else if Clean(root) == "/" {
      RenderInjective(Comps(root), []);
    }
  }

  lemma NoDoubleSlash(cs: seq<string>)
    requires AllProper(cs) && cs != []
    ensures |Render(cs)| > 1 && Render(cs)[1] != '/'
  {
    assert Proper(cs[0]);
    assert Render(cs)[1] == cs[0][0];
    assert cs[0][0] in cs[0];
  }
}
