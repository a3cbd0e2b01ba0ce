/** What one pass whose operations all succeed makes of the whole node, read off the state it
    begins in (pkg/backend/mergerfs/reconcile_linux.go). */
module SupervisionPasses {
  import opened Supervision
  import opened SupervisionSafety
  import opened SupervisionConvergence

  // ---- which mounts will serve ----

  ghost predicate Lists(s: State, ids: seq<Id>) {
    forall k | 0 <= k < |ids| :: ids[k] in s.records
  }

  /** The place of the volume whose target is t, or |ids|. */
  ghost function VisitOf(s: State, ids: seq<Id>, t: Target, i: nat): (k: nat)
    requires Lists(s, ids) && i <= |ids|
    ensures i <= k <= |ids|
    ensures k < |ids| ==> s.records[ids[k]].target == t
    ensures forall l | i <= l < k :: s.records[ids[l]].target != t
    decreases |ids| - i
  {
    if i == |ids| || s.records[ids[i]].target == t then i else VisitOf(s, ids, t, i + 1)
  }

  /** The mount of the k-th volume will serve: it does and nobody touches it, or it is dead and
      is a union, or a view of what serves by the time it is visited. */
  ghost predicate WillServe(cfg: Config, s: State, ids: seq<Id>, k: nat)
    requires Lists(s, ids) && k < |ids|
    decreases k
  {
    var st := s.records[ids[k]];
    if Probe(s, st.target) != Dead then Serving(cfg, s, st.target)
    else if !IsView(st) then true
    else
      var m := VisitOf(s, ids, st.sharedFrom, 0);
      if m < k then WillServe(cfg, s, ids, m) else Serving(cfg, s, st.sharedFrom)
  }

  /** What is mounted at t will serve after the first i visits. */
  ghost predicate ServesAfter(cfg: Config, s: State, ids: seq<Id>, t: Target, i: nat)
    requires Lists(s, ids) && i <= |ids|
  {
    var m := VisitOf(s, ids, t, 0);
    if m < i then WillServe(cfg, s, ids, m) else Serving(cfg, s, t)
  }

  // ---- they do ----

  lemma TargetsAreTheirs(cfg: Config, s: State, ids: seq<Id>)
    requires Inv(cfg, s) && PassOrder(s, ids)
    ensures Lists(s, ids)
    ensures forall k | 0 <= k < |ids| :: ids[k] in cfg.targetOf && cfg.targetOf[ids[k]] == s.records[ids[k]].target
  {
    forall k | 0 <= k < |ids|
      ensures ids[k] in s.records && ids[k] in cfg.targetOf && cfg.targetOf[ids[k]] == s.records[ids[k]].target
    {
      assert ids[k] in ids;
      assert VolumeOk(cfg, s, ids[k]);
    }
  }

  lemma OneVisit(cfg: Config, s: State, ids: seq<Id>, k: nat)
    requires GoodConfig(cfg) && Inv(cfg, s) && PassOrder(s, ids) && k < |ids|
    ensures Lists(s, ids) && VisitOf(s, ids, s.records[ids[k]].target, 0) == k
    ensures forall l | 0 <= l < |ids| && l != k :: cfg.targetOf[ids[l]] != s.records[ids[k]].target
  {
    TargetsAreTheirs(cfg, s, ids);
  }

  ghost predicate Passes(cfg: Config, ids: seq<Id>, runs: seq<seq<Event>>, states: seq<State>) {
    PassTrace(cfg, ids, runs, states) && PassOrder(states[0], ids) && Lists(states[0], ids)
  }

  /** At its visit a volume is as the pass found it. */
  lemma FoundAsIs(cfg: Config, ids: seq<Id>, runs: seq<seq<Event>>, states: seq<State>, j: nat)
    requires Passes(cfg, ids, runs, states) && j < |ids|
    ensures var id, st := ids[j], states[0].records[ids[j]];
            && id in states[j].records && states[j].records[id] == st
            && Probe(states[j], st.target) == Probe(states[0], st.target)
            && (Serving(cfg, states[j], st.target) <==> Serving(cfg, states[0], st.target))
            && Inv(cfg, states[j]) && Effect(cfg, states[j], id, states[j + 1])
  {
    OneVisit(cfg, states[0], ids, j);
    assert ids[j] !in ids[..j] by {
      assert forall k | 0 <= k < j :: ids[..j][k] == ids[k];
    }
    assert ids[0..j] == ids[..j];
    RecordKept(cfg, ids, runs, states, 0, j, ids[j]);
    Frozen(cfg, ids, runs, states, 0, j, states[0].records[ids[j]].target);
    TraceIsSound(cfg, ids, runs, states, j);
  }

  /** A visit mends what needs it, and leaves the rest. */
  lemma VisitServes(cfg: Config, ids: seq<Id>, runs: seq<seq<Event>>, states: seq<State>, j: nat)
    requires Passes(cfg, ids, runs, states) && j < |ids|
    ensures Serving(cfg, states[j + 1], states[0].records[ids[j]].target) <==> WillServe(cfg, states[0], ids, j)
    ensures Probe(states[0], states[0].records[ids[j]].target) == Dead && !WillServe(cfg, states[0], ids, j) ==>
              Probe(states[j + 1], states[0].records[ids[j]].target) == Dead
    decreases j, 1
  {
    var id, st := ids[j], states[0].records[ids[j]];
    FoundAsIs(cfg, ids, runs, states, j);
    ServingAt(cfg, ids, runs, states, j, st.sharedFrom);
    if NeedsRepair(cfg, states[j], id) {
      RepairMends(cfg, states[j], id, states[j + 1]);
    } else {
      QuietKeepsAnswer(cfg, states[j], id, states[j + 1], st.target);
    }
  }

  lemma Unvisited(cfg: Config, ids: seq<Id>, runs: seq<seq<Event>>, states: seq<State>, j: nat, i: nat, t: Target)
    requires Passes(cfg, ids, runs, states) && j <= i <= |ids|
    requires forall l | j <= l < i :: states[0].records[ids[l]].target != t
    ensures Serving(cfg, states[j], t) <==> Serving(cfg, states[i], t)
  {
    TargetsAreTheirs(cfg, states[0], ids);
    Frozen(cfg, ids, runs, states, j, i, t);
  }

  lemma ServingAt(cfg: Config, ids: seq<Id>, runs: seq<seq<Event>>, states: seq<State>, i: nat, t: Target)
    requires Passes(cfg, ids, runs, states) && i <= |ids|
    ensures Serving(cfg, states[i], t) <==> ServesAfter(cfg, states[0], ids, t, i)
    decreases i, 0
  {
    var m := VisitOf(states[0], ids, t, 0);
    if m < i {
      VisitServes(cfg, ids, runs, states, m);
      VisitedOnce(cfg, states[0], ids, m);
      Unvisited(cfg, ids, runs, states, m + 1, i, t);
    } else {
      Unvisited(cfg, ids, runs, states, 0, i, t);
    }
  }

  lemma VisitedOnce(cfg: Config, s: State, ids: seq<Id>, k: nat)
    requires GoodConfig(cfg) && Inv(cfg, s) && PassOrder(s, ids) && Lists(s, ids) && k < |ids|
    ensures forall l | k < l < |ids| :: s.records[ids[l]].target != s.records[ids[k]].target
  {
    OneVisit(cfg, s, ids, k);
    TargetsAreTheirs(cfg, s, ids);
  }

  /** After the pass, what is mounted at a target serves exactly if the state the pass began in
      says so. */
  lemma PassServesIff(cfg: Config, ids: seq<Id>, runs: seq<seq<Event>>, states: seq<State>, t: Target)
    requires PassTrace(cfg, ids, runs, states) && PassOrder(states[0], ids)
    ensures Lists(states[0], ids)
    ensures Serving(cfg, states[|ids|], t) <==> ServesAfter(cfg, states[0], ids, t, |ids|)
  {
    TargetsAreTheirs(cfg, states[0], ids);
    ServingAt(cfg, ids, runs, states, |ids|, t);
  }

  /** Whatever is stored, every dead union serves again. */
  lemma UnionsServeAgain(cfg: Config, ids: seq<Id>, runs: seq<seq<Event>>, states: seq<State>, id: Id)
    requires PassTrace(cfg, ids, runs, states) && PassOrder(states[0], ids)
    requires id in states[0].records && !IsView(states[0].records[id])
    requires Probe(states[0], states[0].records[id].target) == Dead
    ensures Serving(cfg, states[|ids|], states[0].records[id].target)
  {
    var k :| 0 <= k < |ids| && ids[k] == id;
    PassServesIff(cfg, ids, runs, states, states[0].records[id].target);
    OneVisit(cfg, states[0], ids, k);
  }

  // ---- what is left to repair ----

  /** The source of the j-th volume is visited before it, or not at all. */
  ghost predicate SourceBefore(s: State, ids: seq<Id>, j: nat)
    requires Lists(s, ids) && j < |ids|
  {
    forall k | j <= k < |ids| :: s.records[ids[k]].target != s.records[ids[j]].sharedFrom
  }

  /** The j-th volume is a dead view that comes too early: its source does not serve yet, will
      be visited only later, and then serve. */
  ghost predicate ComesTooEarly(cfg: Config, s: State, ids: seq<Id>, j: nat)
    requires Lists(s, ids) && j < |ids|
  {
    var st := s.records[ids[j]];
    && IsView(st) && Probe(s, st.target) == Dead && !Serving(cfg, s, st.sharedFrom)
    && !SourceBefore(s, ids, j) && ServesAfter(cfg, s, ids, st.sharedFrom, |ids|)
  }

  lemma EarlyIff(cfg: Config, s: State, ids: seq<Id>, j: nat)
    requires GoodConfig(cfg) && Inv(cfg, s) && PassOrder(s, ids) && j < |ids| && Lists(s, ids)
    requires IsView(s.records[ids[j]]) && Probe(s, s.records[ids[j]].target) == Dead
    ensures ComesTooEarly(cfg, s, ids, j) <==>
              !WillServe(cfg, s, ids, j) && ServesAfter(cfg, s, ids, s.records[ids[j]].sharedFrom, |ids|)
  {
    var m := VisitOf(s, ids, s.records[ids[j]].sharedFrom, 0);
    if m < |ids| {
      OneVisit(cfg, s, ids, m);
      TargetsAreTheirs(cfg, s, ids);
    }
  }

  /** After the pass a volume is left to repair exactly if it came too early. */
  lemma LeftToRepairIff(cfg: Config, ids: seq<Id>, runs: seq<seq<Event>>, states: seq<State>, j: nat)
    requires PassTrace(cfg, ids, runs, states) && PassOrder(states[0], ids) && j < |ids|
    ensures Lists(states[0], ids)
    ensures NeedsRepair(cfg, states[|ids|], ids[j]) <==> ComesTooEarly(cfg, states[0], ids, j)
  {
    var id, n := ids[j], |ids|;
    TargetsAreTheirs(cfg, states[0], ids);
    var st := states[0].records[id];
    FoundAsIs(cfg, ids, runs, states, j);
    VisitServes(cfg, ids, runs, states, j);
    OneVisit(cfg, states[0], ids, j);
    Frozen(cfg, ids, runs, states, j + 1, n, st.target);
    RecordKept(cfg, ids, runs, states, 0, n, id);
    if IsView(st) && Probe(states[0], st.target) == Dead {
      KeptBehind(cfg, ids, runs, states, j);
      ServingAt(cfg, ids, runs, states, n, st.sharedFrom);
      EarlyIff(cfg, states[0], ids, j);
    } else if Probe(states[0], st.target) != Dead {
      QuietKeepsAnswer(cfg, states[j], id, states[j + 1], st.target);
    }
  }

  lemma KeptBehind(cfg: Config, ids: seq<Id>, runs: seq<seq<Event>>, states: seq<State>, j: nat)
    requires Passes(cfg, ids, runs, states) && j < |ids| && Probe(states[0], states[0].records[ids[j]].target) == Dead
    ensures ids[j] in states[|ids|].records && states[|ids|].records[ids[j]] == states[0].records[ids[j]]
  {
    FoundAsIs(cfg, ids, runs, states, j);
    assert ids[j] !in ids[j + 1..] by {
      assert forall k | j + 1 <= k < |ids| :: ids[j + 1..][k - j - 1] == ids[k];
    }
    RecordKept(cfg, ids, runs, states, j + 1, |ids|, ids[j]);
    RecordKept(cfg, ids, runs, states, 0, |ids|, ids[j]);
  }

  /** One pass, all operations succeeding, leaves nothing to repair exactly if no dead view
      comes too early in it. */
  lemma OnePassConverges(cfg: Config, ids: seq<Id>, runs: seq<seq<Event>>, states: seq<State>)
    requires PassTrace(cfg, ids, runs, states) && PassOrder(states[0], ids)
    ensures Lists(states[0], ids)
    ensures Settled(cfg, states[|ids|]) <==> forall j | 0 <= j < |ids| :: !ComesTooEarly(cfg, states[0], ids, j)
  {
    TargetsAreTheirs(cfg, states[0], ids);
    forall id | id !in ids ensures !NeedsRepair(cfg, states[|ids|], id) {
      RecordKept(cfg, ids, runs, states, 0, |ids|, id);
    }
    forall j | 0 <= j < |ids|
      ensures NeedsRepair(cfg, states[|ids|], ids[j]) <==> ComesTooEarly(cfg, states[0], ids, j)
    {
      LeftToRepairIff(cfg, ids, runs, states, j);
    }
  }

  /** Where views are shared from unions none does. */
  lemma ShortChainsComeInTime(cfg: Config, s: State, ids: seq<Id>, j: nat)
    requires GoodConfig(cfg) && Inv(cfg, s) && PassOrder(s, ids) && ShortChains(s.records) && j < |ids|
    ensures Lists(s, ids) && !ComesTooEarly(cfg, s, ids, j)
  {
    TargetsAreTheirs(cfg, s, ids);
    if IsView(s.records[ids[j]]) {
      forall k | j <= k < |ids| ensures s.records[ids[k]].target != s.records[ids[j]].sharedFrom {
        assert ids[k] in s.records && ids[j] in s.records && IsView(s.records[ids[k]]);
      }
    }
  }

  lemma ShortChainsConverge(cfg: Config, ids: seq<Id>, runs: seq<seq<Event>>, states: seq<State>)
    requires PassTrace(cfg, ids, runs, states) && PassOrder(states[0], ids) && ShortChains(states[0].records)
    ensures Settled(cfg, states[|ids|])
  {
    OnePassConverges(cfg, ids, runs, states);
    forall j | 0 <= j < |ids| ensures !ComesTooEarly(cfg, states[0], ids, j) {
      ShortChainsComeInTime(cfg, states[0], ids, j);
    }
  }
}
