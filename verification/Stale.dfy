/** How long a branch has been stale in a running daemon (pkg/backend/mergerfs/stale.go). */
module Stale {

  const STALE_THRESHOLD := 3

  datatype Key = Key(id: string, branch: string)

  datatype Streak = Streak(pid: int, passes: nat)

  type Counter = map<Key, Streak>

  // ---- the counter operations on values ----

  function Hit(c: Counter, k: Key, pid: int): Counter {
    c[k := if k in c && c[k].pid == pid then Streak(pid, c[k].passes + 1) else Streak(pid, 1)]
  }

  function Clear(c: Counter, k: Key): Counter {
    c - {k}
  }

  function Retain(c: Counter, ids: seq<string>): Counter {
    map k | k in c && k.id in ids :: c[k]
  }

  // ---- what the counter stands for ----

  datatype CounterOp = HitOp(key: Key, pid: int) | ClearOp(key: Key) | RetainOp(ids: seq<string>)

  function Perform(c: Counter, op: CounterOp): Counter {
    match op
    case HitOp(k, pid) => Hit(c, k, pid)
    case ClearOp(k) => Clear(c, k)
    case RetainOp(ids) => Retain(c, ids)
  }

  function Replay(log: seq<CounterOp>): Counter {
    if log == [] then map[] else Perform(Replay(log[..|log| - 1]), log[|log| - 1])
  }

  /** One entry in the history of a branch: seen stale under a daemon, or its run ended. */
  datatype Touch = Seen(pid: int) | Ended

  /** What happened to branch k, oldest first; other branches leave no trace in it. */
  function History(log: seq<CounterOp>, k: Key): seq<Touch> {
    if log == [] then []
    else
      History(log[..|log| - 1], k) +
      match log[|log| - 1]
      case HitOp(k', pid) => if k' == k then [Seen(pid)] else []
      case ClearOp(k') => if k' == k then [Ended] else []
      case RetainOp(ids) => if k.id !in ids then [Ended] else []
  }

  /** n is the length of the longest suffix of h that saw the branch stale under pid. */
  predicate LongestSuffix(h: seq<Touch>, pid: int, n: nat) {
    && n <= |h|
    && (forall i | |h| - n <= i < |h| :: h[i] == Seen(pid))
    && (n < |h| ==> h[|h| - n - 1] != Seen(pid))
  }

  /** The counter of a branch is always the length of the unbroken run of stale sightings
      under one daemon that ends its history, and is absent when there is no such run. */
  lemma {:induction false} CounterIsStreak(log: seq<CounterOp>, k: Key)
    ensures
      var h, c := History(log, k), Replay(log);
      && (k in c <==> h != [] && h[|h| - 1].Seen?)
      && (k in c ==> c[k].passes > 0 && c[k].pid == h[|h| - 1].pid && LongestSuffix(h, c[k].pid, c[k].passes))
  {
    if log != [] {
      var front := log[..|log| - 1];
      CounterIsStreak(front, k);
      var h0, h := History(front, k), History(log, k);
      match log[|log| - 1] {
        case HitOp(k', pid) =>
          if k' == k {
            assert h == h0 + [Seen(pid)];
            assert h[..|h0|] == h0;
          } else {
            assert h == h0;
          }
        case ClearOp(k') =>
          assert k' != k ==> h == h0;
        case RetainOp(ids) =>
          assert k.id in ids ==> h == h0;
      }
    }
  }

  /** staleCounter: a map updated in place by the repair pass. */
  class StaleCounter {
    var runs: Counter
    ghost var log: seq<CounterOp>

    ghost predicate Valid()
      reads this
    {
      runs == Replay(log)
    }

    constructor ()
      ensures Valid() && log == []
    {
      runs := map[];
      log := [];
    }

    method HitBranch(id: string, branch: string, pid: int) returns (passes: nat)
      requires Valid()
      modifies this
      ensures Valid() && log == old(log) + [HitOp(Key(id, branch), pid)]
      ensures runs == Hit(old(runs), Key(id, branch), pid) && passes == runs[Key(id, branch)].passes
      ensures LongestSuffix(History(log, Key(id, branch)), pid, passes) && passes > 0
      ensures forall k | k != Key(id, branch) :: History(log, k) == old(History(log, k))
    {
      var k := Key(id, branch);
      var r := if k in runs then runs[k] else Streak(0, 0);
      if r.pid != pid {
        r := Streak(pid, 0);
      }
      r := r.(passes := r.passes + 1);
      runs := runs[k := r];
      passes := r.passes;
      log := log + [HitOp(k, pid)];
      assert log[..|log| - 1] == old(log);
      CounterIsStreak(log, k);
    }

    method ClearBranch(id: string, branch: string)
      requires Valid()
      modifies this
      ensures Valid() && log == old(log) + [ClearOp(Key(id, branch))]
      ensures runs == Clear(old(runs), Key(id, branch))
      ensures forall k | k != Key(id, branch) :: History(log, k) == old(History(log, k))
    {
      runs := runs - {Key(id, branch)};
      log := log + [ClearOp(Key(id, branch))];
      assert log[..|log| - 1] == old(log);
    }

    method RetainVolumes(ids: seq<string>)
      requires Valid()
      modifies this
      ensures Valid() && log == old(log) + [RetainOp(ids)]
      ensures runs == Retain(old(runs), ids)
    {
      var todo := runs.Keys;
      while todo != {}
        invariant log == old(log)
        invariant forall k :: k in runs <==> k in old(runs) && (k in todo || k.id in ids)
        invariant forall k | k in runs :: runs[k] == old(runs)[k]
        decreases |todo|
      {
        var k :| k in todo;
        todo := todo - {k};
        if k.id !in ids {
          runs := runs - {k};
        }
      }
      log := log + [RetainOp(ids)];
      assert log[..|log| - 1] == old(log);
      assert runs == Retain(old(runs), ids);
    }
  }
}
