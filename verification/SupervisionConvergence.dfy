/** One reconcile pass whose operations all succeed repairs everything that can be
    repaired, and a second one then has nothing to do. */
module SupervisionConvergence {
  import opened Argv
  import opened Stale
  import opened Supervision
  import opened SupervisionSafety
  import opened SupervisionRuns

  // ---- the order of a pass ----

  /** The unions first, then the views, each in the order they were loaded: what the
      stable sort of ids leaves. */
  function SharedLast(states: seq<Record>): seq<Record> {
    Pick(states, false) + Pick(states, true)
  }

  function PickFirst(states: seq<Record>, views: bool): seq<Record>
    requires states != []
  {
    if IsView(states[0]) == views then [states[0]] else []
  }

  function Pick(states: seq<Record>, views: bool): seq<Record> {
    if states == [] then []
    else PickFirst(states, views) + Pick(states[1..], views)
  }

  lemma {:induction false} PickMembers(states: seq<Record>, views: bool)
    ensures forall st :: st in Pick(states, views) <==> st in states && IsView(st) == views
  {
    if states != [] {
      PickMembers(states[1..], views);
      assert states == [states[0]] + states[1..];
    }
  }

  lemma {:induction false} PicksTogether(states: seq<Record>)
    ensures multiset(states) == multiset(Pick(states, false)) + multiset(Pick(states, true))
  {
    if states != [] {
      PicksTogether(states[1..]);
      assert states == [states[0]] + states[1..];
      PickOne(states, false);
      PickOne(states, true);
    }
  }

  lemma PickOne(states: seq<Record>, views: bool)
    requires states != []
    ensures multiset(Pick(states, views)) == multiset(PickFirst(states, views)) + multiset(Pick(states[1..], views))
  {}

  lemma Regroup(a: seq<Record>, b: seq<Record>, c: seq<Record>)
    ensures a + (b + c) == a + b + c
  {}

  lemma {:induction false} PickConcat(a: seq<Record>, b: seq<Record>, views: bool)
    ensures Pick(a + b, views) == Pick(a, views) + Pick(b, views)
  {
    if a == [] {
      assert a + b == b;
    } else {
      assert (a + b)[0] == a[0] && (a + b)[1..] == a[1..] + b;
      PickConcat(a[1..], b, views);
      assert Pick(a + b, views) == PickFirst(a, views) + (Pick(a[1..], views) + Pick(b, views));
      Regroup(PickFirst(a, views), Pick(a[1..], views), Pick(b, views));
    }
  }

  lemma {:induction false} PickTwice(states: seq<Record>, first: bool, views: bool)
    ensures Pick(Pick(states, first), views) == if first == views then Pick(states, views) else []
  {
    if states != [] {
      PickTwice(states[1..], first, views);
      PickConcat(PickFirst(states, first), Pick(states[1..], first), views);
    }
  }

  /** Unions keep their order among themselves, and so do views. */
  lemma SharedLastIsStable(states: seq<Record>, views: bool)
    ensures Pick(SharedLast(states), views) == Pick(states, views)
  {
    PickConcat(Pick(states, false), Pick(states, true), views);
    PickTwice(states, false, views);
    PickTwice(states, true, views);
  }

  /** A permutation of the input with every union before every view. */
  lemma SharedLastIsSorted(states: seq<Record>)
    ensures multiset(SharedLast(states)) == multiset(states)
    ensures var r := SharedLast(states); forall i, j | 0 <= i < j < |r| && IsView(r[i]) :: IsView(r[j])
  {
    PicksTogether(states);
    PickMembers(states, false);
    PickMembers(states, true);
    ViewsBehind(Pick(states, false), Pick(states, true));
  }

  lemma ViewsBehind(unions: seq<Record>, views: seq<Record>)
    requires (forall st | st in unions :: !IsView(st)) && (forall st | st in views :: IsView(st))
    ensures var r := unions + views; forall i, j | 0 <= i < j < |r| && IsView(r[i]) :: IsView(r[j])
  {
    var r := unions + views;
    forall k | 0 <= k < |r| ensures IsView(r[k]) <==> k >= |unions| {
      assert if k < |unions| then r[k] in unions else r[k] in views;
    }
  }

  ghost predicate DistinctIds(states: seq<Record>) {
    forall i, j | 0 <= i < j < |states| :: states[i].volumeID != states[j].volumeID
  }

  lemma {:induction false} PickDistinct(states: seq<Record>, views: bool)
    requires DistinctIds(states)
    ensures DistinctIds(Pick(states, views))
    ensures forall st | st in states && IsView(st) == views :: st in Pick(states, views)
  {
    if states != [] {
      var rest := Pick(states[1..], views);
      PickDistinct(states[1..], views);
      PickMembers(states[1..], views);
      forall st | st in rest ensures st.volumeID != states[0].volumeID {
        var j :| 0 <= j < |states[1..]| && states[1..][j] == st;
        assert states[j + 1] == st;
      }
    }
  }

  lemma SharedLastDistinct(states: seq<Record>)
    requires DistinctIds(states)
    ensures DistinctIds(SharedLast(states))
    ensures forall st :: st in SharedLast(states) <==> st in states
  {
    var unions, views := Pick(states, false), Pick(states, true);
    PickDistinct(states, false);
    PickDistinct(states, true);
    PickMembers(states, false);
    PickMembers(states, true);
    forall i, j | 0 <= i < |unions| && 0 <= j < |views| ensures unions[i].volumeID != views[j].volumeID {
      assert unions[i] in unions && views[j] in views;
      var a :| 0 <= a < |states| && states[a] == unions[i];
      var b :| 0 <= b < |states| && states[b] == views[j];
    }
  }

  /** ids names every record once, views last. */
  ghost predicate PassOrder(s: State, ids: seq<Id>) {
    && (forall i, j | 0 <= i < j < |ids| :: ids[i] != ids[j])
    && (forall id :: id in ids <==> id in s.records)
    && (forall i, j | 0 <= i < j < |ids| && IsView(s.records[ids[i]]) :: IsView(s.records[ids[j]]))
  }

  // ---- one whole reconcile ----

  function SealSteps(cfg: Config, id: Id): seq<Event> {
    if cfg.seal then [Sealed(id, true)] else []
  }

  function RemountSteps(cfg: Config, id: Id): seq<Event> {
    [RemountDetached(id, true)] + ([RemountStopped(id, true)] + ([Started(id, true)] + SealSteps(cfg, id)))
  }

  function RebindSteps(id: Id): seq<Event> {
    [RebindDetached(id, true)] + [RebindBound(id, true)]
  }

  predicate RepairTurns(id: Id, es: seq<Event>) {
    forall i | 0 <= i < |es| :: es[i] == RepairEnd(id) || (es[i].BranchSeen? && es[i].id == id)
  }

  /** The steps after the probe of a reconcile whose operations all succeed. */
  ghost predicate Follows(cfg: Config, s: State, id: Id, es: seq<Event>)
    requires id in s.records
  {
    var st := s.records[id];
    match Probe(s, st.target)
    case Dead =>
      if !IsView(st) then es == RemountSteps(cfg, id)
      else if Serving(cfg, s, st.sharedFrom) then es == RebindSteps(id)
      else es == []
    case Gone => es == [Dropped(id, true)]
    case Other => es == []
    case Live => RepairTurns(id, es)
    case Hung => RepairTurns(id, es)
  }

  /** A whole reconcile of id: a conclusive probe, every operation succeeding, and the lock
      given back at the end. */
  ghost predicate WholeReconcile(cfg: Config, s: State, id: Id, es: seq<Event>) {
    && Runs(cfg, s, es) && id !in After(cfg, s, es).ops
    && if id in s.records
       then es != [] && es[0] == ReconcileBegin(id, Probe(s, s.records[id].target)) && Follows(cfg, s, id, es[1..])
       else es == []
  }

  /** The daemons are the same processes; only branches of them may have been replaced. */
  ghost predicate SameProcesses(a: map<Id, Daemon>, b: map<Id, Daemon>) {
    && (forall id :: id in a <==> id in b)
    && (forall id | id in a :: b[id] == a[id].(clones := b[id].clones))
  }

  ghost predicate NeedsRepair(cfg: Config, s: State, id: Id) {
    && id in s.records && Probe(s, s.records[id].target) == Dead
    && (!IsView(s.records[id]) || Serving(cfg, s, s.records[id].sharedFrom))
  }

  /** What a whole reconcile of id does. */
  ghost predicate Effect(cfg: Config, s: State, id: Id, s': State) {
    && s'.ops == s.ops && s'.dirs == s.dirs
    && if NeedsRepair(cfg, s, id) then
         var st := s.records[id];
         && s'.records == s.records
         && if !IsView(st)
            then && s'.mounts == s.mounts[st.target := Mount(st, id, s.nextPid, cfg.seal)]
                 && s'.daemons == s.daemons[id := Daemon(s.nextPid, st, Clones(st.branches), false, false)]
            else && s'.mounts == s.mounts[st.target := s.mounts[st.sharedFrom].(record := st)]
                 && s'.daemons == s.daemons
       else
         && s'.mounts == s.mounts && SameProcesses(s.daemons, s'.daemons)
         && s'.records == (if id in s.records && Probe(s, s.records[id].target) == Gone then s.records - {id}
             else s.records)
  }

  lemma Peel(cfg: Config, s: State, e: Event, es: seq<Event>)
    requires Runs(cfg, s, [e] + es)
    ensures Enabled(cfg, s, e) && Runs(cfg, Apply(cfg, s, e), es)
    ensures After(cfg, s, [e] + es) == After(cfg, Apply(cfg, s, e), es)
  {
    assert ([e] + es)[1..] == es;
  }

  /** A daemon started and sealed for st. */
  function Launched(cfg: Config, s: State, id: Id, st: Record): State {
    s.(daemons := s.daemons[id := Daemon(s.nextPid, st, Clones(st.branches), false, false)],
       mounts := s.mounts[st.target := Mount(st, id, s.nextPid, cfg.seal)],
       nextPid := s.nextPid + 1)
  }

  lemma StartPlays(cfg: Config, s: State, id: Id, st: Record)
    requires id in s.ops && s.ops[id].Start? && s.ops[id].st == st
             && Runs(cfg, s, [Started(id, true)] + SealSteps(cfg, id))
    ensures After(cfg, s, [Started(id, true)] + SealSteps(cfg, id)) == Done(Launched(cfg, s, id, st), id)
  {
    Peel(cfg, s, Started(id, true), SealSteps(cfg, id));
    var s1 := Apply(cfg, s, Started(id, true));
    if cfg.seal {
      assert [Sealed(id, true)] + [] == SealSteps(cfg, id);
      Peel(cfg, s1, Sealed(id, true), []);
      assert s1.ops - {id} == s.ops - {id};
      assert s1.mounts[st.target := s1.mounts[st.target].(sealed := true)]
          == s.mounts[st.target := Mount(st, id, s.nextPid, true)];
    }
  }

  lemma StopPlays(cfg: Config, s: State, id: Id, st: Record)
    requires id in s.ops && s.ops[id] == RemountStop(st)
    requires Runs(cfg, s, [RemountStopped(id, true)] + ([Started(id, true)] + SealSteps(cfg, id)))
    ensures After(cfg, s, [RemountStopped(id, true)] + ([Started(id, true)] + SealSteps(cfg, id)))
         == Done(Launched(cfg, s.(daemons := s.daemons - {id}), id, st), id)
  {
    Peel(cfg, s, RemountStopped(id, true), [Started(id, true)] + SealSteps(cfg, id));
    var s1 := Apply(cfg, s, RemountStopped(id, true));
    StartPlays(cfg, s1, id, st);
    assert s1.ops - {id} == s.ops - {id};
  }

  lemma RemountPlays(cfg: Config, s: State, id: Id, st: Record)
    requires id in s.ops && s.ops[id] == RemountDetach(st) && Runs(cfg, s, RemountSteps(cfg, id))
    ensures After(cfg, s, RemountSteps(cfg, id))
         == Done(Launched(cfg, Detach(s, st.target).(daemons := s.daemons - {id}), id, st), id)
  {
    Peel(cfg, s, RemountDetached(id, true), [RemountStopped(id, true)] + ([Started(id, true)] + SealSteps(cfg, id)));
    var s1 := Apply(cfg, s, RemountDetached(id, true));
    StopPlays(cfg, s1, id, st);
    assert s1.ops - {id} == s.ops - {id};
  }

  lemma RebindPlays(cfg: Config, s: State, id: Id, st: Record)
    requires id in s.ops && s.ops[id] == RebindDetach(st) && Runs(cfg, s, RebindSteps(id)) && st.target != st.sharedFrom
    ensures st.sharedFrom in s.mounts && Serving(cfg, s, st.sharedFrom)
    ensures After(cfg, s, RebindSteps(id)) == Done(BindView(Detach(s, st.target), st), id)
  {
    Peel(cfg, s, RebindDetached(id, true), [RebindBound(id, true)]);
    var s1 := Apply(cfg, s, RebindDetached(id, true));
    assert [RebindBound(id, true)] + [] == [RebindBound(id, true)];
    Peel(cfg, s1, RebindBound(id, true), []);
    assert s1.ops - {id} == s.ops - {id};
  }

  lemma RemountEffect(cfg: Config, s: State, id: Id)
    requires id in cfg.targetOf && VolumeOk(cfg, s, id) && id !in s.ops && NeedsRepair(cfg, s, id)
             && !IsView(s.records[id])
    requires Runs(cfg, Become(s, id, RemountDetach(s.records[id])), RemountSteps(cfg, id))
    ensures Effect(cfg, s, id, After(cfg, Become(s, id, RemountDetach(s.records[id])), RemountSteps(cfg, id)))
  {
    var st := s.records[id];
    var s1 := Become(s, id, RemountDetach(st));
    RemountPlays(cfg, s1, id, st);
    assert s1.ops - {id} == s.ops;
    var d := Daemon(s.nextPid, st, Clones(st.branches), false, false);
    assert (s.daemons - {id})[id := d] == s.daemons[id := d];
    var m := Mount(st, id, s.nextPid, cfg.seal);
    assert (s.mounts - {st.target})[st.target := m] == s.mounts[st.target := m];
  }

  lemma RebindEffect(cfg: Config, s: State, id: Id)
    requires id in s.records && id !in s.ops && IsView(s.records[id])
    requires Probe(s, s.records[id].target) == Dead && Serving(cfg, s, s.records[id].sharedFrom)
    requires Runs(cfg, Become(s, id, RebindDetach(s.records[id])), RebindSteps(id))
    ensures NeedsRepair(cfg, s, id)
    ensures Effect(cfg, s, id, After(cfg, Become(s, id, RebindDetach(s.records[id])), RebindSteps(id)))
  {
    var st := s.records[id];
    var s1 := Become(s, id, RebindDetach(st));
    RebindPlays(cfg, s1, id, st);
    assert s1.ops - {id} == s.ops;
    var m := s.mounts[st.sharedFrom].(record := st);
    assert (s.mounts - {st.target})[st.target := m] == s.mounts[st.target := m];
  }

  /** The turns of a repair change branches and counters, nothing else. */
  ghost predicate OnlyBranches(s: State, s': State, id: Id) {
    && s'.mounts == s.mounts && s'.dirs == s.dirs && s'.records == s.records
    && SameProcesses(s.daemons, s'.daemons) && s'.ops - {id} == s.ops - {id}
  }

  lemma {:induction false} TurnsEffect(cfg: Config, s: State, id: Id, es: seq<Event>)
    requires Runs(cfg, s, es) && RepairTurns(id, es)
    ensures OnlyBranches(s, After(cfg, s, es), id)
    decreases |es|
  {
    if es != [] {
      if es[0] == RepairEnd(id) {
        EndEffect(cfg, s, id);
      } else {
        TurnEffect(cfg, s, id, es[0].sight);
      }
      TurnsEffect(cfg, Apply(cfg, s, es[0]), id, es[1..]);
    }
  }

  lemma EndEffect(cfg: Config, s: State, id: Id)
    requires Enabled(cfg, s, RepairEnd(id))
    ensures OnlyBranches(s, Apply(cfg, s, RepairEnd(id)), id)
  {}

  lemma TurnEffect(cfg: Config, s: State, id: Id, sight: Sight)
    requires Enabled(cfg, s, BranchSeen(id, sight))
    ensures OnlyBranches(s, Apply(cfg, s, BranchSeen(id, sight)), id)
  {
    assert OnlyBranches(s, SeeBranch(s, id, sight), id);
  }

  lemma DropEffect(cfg: Config, s: State, id: Id)
    requires id in s.records && id !in s.ops && Probe(s, s.records[id].target) == Gone
    requires Runs(cfg, Become(s, id, Drop(s.records[id])), [Dropped(id, true)])
    ensures Effect(cfg, s, id, After(cfg, Become(s, id, Drop(s.records[id])), [Dropped(id, true)]))
  {
    var s1 := Become(s, id, Drop(s.records[id]));
    assert [Dropped(id, true)] + [] == [Dropped(id, true)];
    Peel(cfg, s1, Dropped(id, true), []);
    assert s1.ops - {id} == s.ops;
  }

  lemma RepairEffect(cfg: Config, s: State, id: Id, es: seq<Event>)
    requires id in s.records && id !in s.ops && Answers(s, s.records[id].target)
    requires Runs(cfg, BeginRepair(s, id), es) && RepairTurns(id, es) && id !in After(cfg, BeginRepair(s, id), es).ops
    ensures Effect(cfg, s, id, After(cfg, BeginRepair(s, id), es))
  {
    var s1 := BeginRepair(s, id);
    TurnsEffect(cfg, s1, id, es);
    var s2 := After(cfg, s1, es);
    assert s2.ops == s2.ops - {id} == s1.ops - {id} == s.ops;
  }

  lemma ReconcileEffect(cfg: Config, s: State, id: Id, es: seq<Event>)
    requires GoodConfig(cfg) && Inv(cfg, s) && id !in s.ops && WholeReconcile(cfg, s, id, es)
    ensures Effect(cfg, s, id, After(cfg, s, es))
  {
    if id in s.records {
      assert VolumeOk(cfg, s, id);
      var seen := Probe(s, s.records[id].target);
      assert es == [ReconcileBegin(id, seen)] + es[1..];
      Peel(cfg, s, ReconcileBegin(id, seen), es[1..]);
      ReconcileBranches(cfg, s, id, seen, es[1..]);
    }
  }

  lemma ReconcileBranches(cfg: Config, s: State, id: Id, seen: Probed, es: seq<Event>)
    requires id in s.records && id in cfg.targetOf && VolumeOk(cfg, s, id) && id !in s.ops
    requires seen == Probe(s, s.records[id].target) && Follows(cfg, s, id, es)
    requires Runs(cfg, BeginReconcile(cfg, s, id, seen), es)
             && id !in After(cfg, BeginReconcile(cfg, s, id, seen), es).ops
    ensures Effect(cfg, s, id, After(cfg, BeginReconcile(cfg, s, id, seen), es))
  {
    match seen {
      case Dead =>
        if !IsView(s.records[id]) {
          RemountEffect(cfg, s, id);
        } else if Serving(cfg, s, s.records[id].sharedFrom) {
          RebindEffect(cfg, s, id);
        }
      case Gone => DropEffect(cfg, s, id);
      case Other =>
      case Live => RepairEffect(cfg, s, id, es);
      case Hung => RepairEffect(cfg, s, id, es);
    }
  }

  // ---- what a reconcile leaves as it is, and what it mends ----

  /** Every other target keeps its mount and its answer. */
  lemma OthersKeepAnswering(cfg: Config, s: State, id: Id, s': State, t: Target)
    requires GoodConfig(cfg) && Inv(cfg, s) && Effect(cfg, s, id, s')
    requires id in s.records ==> s.records[id].target != t
    ensures (t in s'.mounts <==> t in s.mounts) && (t in s.mounts ==> s'.mounts[t] == s.mounts[t])
    ensures Probe(s', t) == Probe(s, t)
  {
    if t in s.mounts {
      assert VolumeOk(cfg, s, VolumeAt(cfg, t));
    }
    if id in s.records {
      assert VolumeOk(cfg, s, id);
    }
    if !NeedsRepair(cfg, s, id) {
      QuietKeepsAnswer(cfg, s, id, s', t);
    } else if IsView(s.records[id]) {
      assert s'.daemons == s.daemons;
    } else {
      RemountKeepsAnswer(cfg, s, id, s', t);
    }
  }

  lemma RemountKeepsAnswer(cfg: Config, s: State, id: Id, s': State, t: Target)
    requires Effect(cfg, s, id, s') && NeedsRepair(cfg, s, id) && !IsView(s.records[id]) && s.records[id].target != t
    requires id in cfg.targetOf && VolumeOk(cfg, s, id) && (t in s.mounts ==> s.mounts[t].pid < s.nextPid)
    ensures Probe(s', t) == Probe(s, t)
  {}

  lemma RepairMends(cfg: Config, s: State, id: Id, s': State)
    requires GoodConfig(cfg) && Inv(cfg, s) && Effect(cfg, s, id, s') && NeedsRepair(cfg, s, id)
    ensures Probe(s', s.records[id].target) == Live
    ensures Serving(cfg, s', s.records[id].target)
  {
    var st := s.records[id];
    assert VolumeOk(cfg, s, id);
    if IsView(st) {
      assert VolumeOk(cfg, s, VolumeAt(cfg, st.sharedFrom));
    }
  }

  lemma QuietKeepsAnswer(cfg: Config, s: State, id: Id, s': State, t: Target)
    requires Effect(cfg, s, id, s') && !NeedsRepair(cfg, s, id)
    ensures Probe(s', t) == Probe(s, t)
  {}

  // ---- a pass ----

  /** states[i + 1] is what reconciling ids[i] makes of states[i]. */
  ghost predicate PassTrace(cfg: Config, ids: seq<Id>, runs: seq<seq<Event>>, states: seq<State>) {
    && |runs| == |ids| && |states| == |ids| + 1
    && GoodConfig(cfg) && Inv(cfg, states[0]) && (forall id | id in ids :: id !in states[0].ops)
    && forall i | 0 <= i < |ids| :: WholeReconcile(cfg, states[i], ids[i], runs[i])
        && states[i + 1] == After(cfg, states[i], runs[i])
  }

  lemma {:induction false} TraceIsSound(cfg: Config, ids: seq<Id>, runs: seq<seq<Event>>, states: seq<State>, i: nat)
    requires PassTrace(cfg, ids, runs, states) && i <= |ids|
    ensures Inv(cfg, states[i]) && states[i].ops == states[0].ops
    ensures i < |ids| ==> Effect(cfg, states[i], ids[i], states[i + 1])
  {
    if i > 0 {
      TraceIsSound(cfg, ids, runs, states, i - 1);
      RunKeepsInv(cfg, states[i - 1], runs[i - 1]);
    }
    if i < |ids| {
      ReconcileEffect(cfg, states[i], ids[i], runs[i]);
    }
  }

  /** A record goes only when its own volume is visited. */
  lemma {:induction false} RecordKept(cfg: Config, ids: seq<Id>, runs: seq<seq<Event>>, states: seq<State>, i: nat,
                                      k: nat, id: Id)
    requires PassTrace(cfg, ids, runs, states) && i <= k <= |ids|
    ensures id in states[k].records ==> id in states[i].records && states[k].records[id] == states[i].records[id]
    ensures id !in ids[i..k] && id in states[i].records ==> id in states[k].records
    decreases k - i
  {
    if i < k {
      TraceIsSound(cfg, ids, runs, states, i);
      RecordKept(cfg, ids, runs, states, i + 1, k, id);
      assert ids[i] in ids[i..k] && ids[i..k] == [ids[i]] + ids[i + 1..k];
    }
  }

  /** A target that is not visited keeps its mount and its answer. */
  lemma {:induction false} Frozen(cfg: Config, ids: seq<Id>, runs: seq<seq<Event>>, states: seq<State>, i: nat, k: nat,
                                  t: Target)
    requires PassTrace(cfg, ids, runs, states) && i <= k <= |ids|
    requires forall j | i <= j < k && ids[j] in cfg.targetOf :: cfg.targetOf[ids[j]] != t
    ensures Probe(states[k], t) == Probe(states[i], t)
    ensures (t in states[k].mounts <==> t in states[i].mounts)
            && (t in states[i].mounts ==> states[k].mounts[t] == states[i].mounts[t])
    decreases k - i
  {
    if i < k {
      TraceIsSound(cfg, ids, runs, states, i);
      if ids[i] in states[i].records {
        assert VolumeOk(cfg, states[i], ids[i]);
      }
      OthersKeepAnswering(cfg, states[i], ids[i], states[i + 1], t);
      Frozen(cfg, ids, runs, states, i + 1, k, t);
    }
  }

  /** Views are shared from unions, never from views. */
  ghost predicate ShortChains(records: map<Id, Record>) {
    forall view, source | view in records && source in records && records[source].target == records[view].sharedFrom ::
      !IsView(records[source])
  }

  ghost predicate Settled(cfg: Config, s: State) {
    forall id :: !NeedsRepair(cfg, s, id)
  }

  lemma SettledStays(cfg: Config, s: State, id: Id, s': State)
    requires Settled(cfg, s) && Effect(cfg, s, id, s')
    ensures Settled(cfg, s')
  {
    forall x ensures !NeedsRepair(cfg, s', x) {
      if x in s'.records {
        QuietKeepsAnswer(cfg, s, id, s', s'.records[x].target);
        QuietKeepsAnswer(cfg, s, id, s', s'.records[x].sharedFrom);
        assert !NeedsRepair(cfg, s, x);
      }
    }
  }

  /** With nothing in between, a second pass, in whatever order, takes down, starts and binds
      nothing. */
  lemma {:induction false} SecondPassIsIdle(cfg: Config, ids: seq<Id>, runs: seq<seq<Event>>, states: seq<State>,
                                        i: nat)
    requires PassTrace(cfg, ids, runs, states) && Settled(cfg, states[0]) && i <= |ids|
    ensures Settled(cfg, states[i]) && states[i].mounts == states[0].mounts
            && SameProcesses(states[0].daemons, states[i].daemons)
    ensures i < |ids| ==> forall e | e in runs[i] :: !Taking(e) && !Making(e)
  {
    if i > 0 {
      SecondPassIsIdle(cfg, ids, runs, states, i - 1);
      TraceIsSound(cfg, ids, runs, states, i - 1);
      SettledStays(cfg, states[i - 1], ids[i - 1], states[i]);
    }
    if i < |ids| {
      TraceIsSound(cfg, ids, runs, states, i);
      IdleRun(cfg, states[i], ids[i], runs[i]);
    }
  }

  lemma IdleRun(cfg: Config, s: State, id: Id, es: seq<Event>)
    requires WholeReconcile(cfg, s, id, es) && !NeedsRepair(cfg, s, id) && id !in s.ops
    ensures forall e | e in es :: !Taking(e) && !Making(e)
  {
    if id in s.records {
      var st := s.records[id];
      var seen := Probe(s, st.target);
      assert es == [ReconcileBegin(id, seen)] + es[1..];
    }
  }
}
