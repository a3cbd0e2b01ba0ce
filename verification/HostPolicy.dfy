/** Which host directories a hostPath source may come from (pkg/volsource/hostpaths.go).
    The code compares strings; the lemmas say what that means on directory names. */
module HostPolicy {
  import opened Paths

  datatype HostPaths = HostPaths(root: string, allowed: seq<string>, denied: seq<string>)

  datatype Verdict = Admitted | Disabled | OutsideAllowed | Denied

  /** HostPaths.Validate: every configured path is absolute and clean. */
  predicate Valid(h: HostPaths) {
    && IsClean(h.root)
    && (forall p | p in h.allowed :: IsClean(p))
    && (forall p | p in h.denied :: IsClean(p))
  }

  predicate UnderAny(p: string, dirs: seq<string>) {
    exists d | d in dirs :: Under(p, d)
  }

  function Check(h: HostPaths, host: string): Verdict {
    if h.allowed == [] then Disabled
    else if !UnderAny(host, h.allowed) then OutsideAllowed
    else if UnderAny(host, h.denied) then Denied
    else Admitted
  }

  /** The early test, made on the way: host lies on the path of an allowed directory, or below one. */
  predicate Reachable(h: HostPaths, host: string) {
    exists a | a in h.allowed :: Under(host, a) || Under(a, host)
  }

  /** cs names dir or something below it. */
  predicate Inside(cs: seq<string>, dir: string)
    requires IsAbs(dir)
  {
    Comps(dir) <= cs
  }

  ghost predicate Permitted(h: HostPaths, cs: seq<string>)
    requires Valid(h)
  {
    && (exists a | a in h.allowed :: Inside(cs, a))
    && (forall d | d in h.denied :: !Inside(cs, d))
  }

  /** A directory is admitted exactly when it lies in an allowed one and in no denied one. */
  lemma CheckIsContainment(h: HostPaths, cs: seq<string>)
    requires Valid(h) && AllProper(cs)
    ensures Check(h, Render(cs)) == Admitted <==> Permitted(h, cs)
  {
    CompsRender(cs);
    forall d | d in h.allowed || d in h.denied
      ensures IsAbs(d) && (Under(Render(cs), d) <==> Inside(cs, d))
    {
      UnderIsPrefix(Render(cs), d);
    }
  }

  /** What is permitted is reachable, so the early test refuses no permitted directory. */
  lemma PermittedIsReachable(h: HostPaths, cs: seq<string>)
    requires Valid(h) && AllProper(cs) && Permitted(h, cs)
    ensures Reachable(h, Render(cs))
  {
    var a :| a in h.allowed && Inside(cs, a);
    CompsRender(cs);
    UnderIsPrefix(Render(cs), a);
  }
}
