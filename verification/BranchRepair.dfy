/** Repairing the branches of a running daemon, from what its mount table shows
    (pkg/backend/mergerfs/probe_linux.go, stale.go): a replacement that failed is tried again,
    and one that succeeds serves the branch again. */
module BranchRepair {
  import opened Optional
  import opened Argv
  import opened Stale
  import opened Supervision
  import opened SupervisionSafety
  import opened SupervisionRuns
  import MountInfo

  predicate Looks(s: State, id: Id) {
    id in s.ops && s.ops[id].Repair? && s.ops[id].next < |s.ops[id].st.branches|
  }

  /** The daemon that is looked at runs, with a copy, or the lack of one, for each branch. */
  predicate LooksAtDaemon(s: State, id: Id) {
    && Looks(s, id) && id in s.daemons && s.daemons[id].pid == s.ops[id].pid
    && |s.daemons[id].clones| == |s.ops[id].st.branches|
  }

  /** The mount table of the daemon: a branch is mounted in it unless it was lost. */
  predicate TableOf(d: Daemon, table: seq<MountInfo.Entry>) {
    && MountInfo.IsTable(table)
    && forall i | 0 <= i < |d.clones| :: MountInfo.IsMount(table, BranchPath(i)) <==> d.clones[i].Here?
  }

  /** The sight says what a probe and the mount table, if it could be read, show. */
  predicate Honest(s: State, id: Id, seen: Probed, readable: bool, sight: Sight)
    requires LooksAtDaemon(s, id)
  {
    sight.staleInDaemon <==>
      MountInfo.DeadInDaemon(seen) || (readable && s.daemons[id].clones[s.ops[id].next].Lost?)
  }

  /** What the code judges from the table is such a sight, exactly if the table is read
      right, as MountInfo says; in particular where no name in it has a blank. */
  lemma JudgementIsHonest(s: State, id: Id, seen: Probed, table: Option<seq<MountInfo.Entry>>, sight: Sight)
    requires LooksAtDaemon(s, id) && (table.Some? ==> TableOf(s.daemons[id], table.value))
    requires var p := BranchPath(s.ops[id].next);
             sight.staleInDaemon <==>
               MountInfo.DeadInDaemon(seen) || (table.Some? && !MountInfo.IsFound(table.value, p))
    ensures var p := BranchPath(s.ops[id].next);
            Honest(s, id, seen, table.Some?, sight) <==>
              || MountInfo.DeadInDaemon(seen) || table.None?
              || (MountInfo.IsFound(table.value, p) <==> MountInfo.IsMount(table.value, p))
    ensures table.Some? && (forall e | e in table.value :: MountInfo.IsWord(e.root) && MountInfo.IsWord(e.point)) ==>
              Honest(s, id, seen, true, sight)
  {
    var i := s.ops[id].next;
    if table.Some? && forall e | e in table.value :: MountInfo.IsWord(e.root) && MountInfo.IsWord(e.point) {
      MountInfo.PlainTablesJudgeRight(table.value, i);
    }
  }

  /** A lost branch that is live on the host looks stale wherever the table can be read. */
  lemma LostIsStale(s: State, id: Id, seen: Probed, sight: Sight)
    requires LooksAtDaemon(s, id) && Honest(s, id, seen, true, sight)
    ensures s.daemons[id].clones[s.ops[id].next].Lost? ==> sight.staleInDaemon
  {}

  /** A replacement that succeeds gives the daemon its branch back; one that fails loses it. */
  lemma ReplacementDecides(cfg: Config, s: State, id: Id, sight: Sight)
    requires LooksAtDaemon(s, id) && Attempted(s, BranchSeen(id, sight))
    ensures var i, s' := s.ops[id].next, Apply(cfg, s, BranchSeen(id, sight));
            && id in s'.daemons && |s'.daemons[id].clones| == |s.daemons[id].clones|
            && s'.daemons[id].clones[i] == (if sight.replaced then Here(s.ops[id].st.branches[i]) else Lost)
            && (if sight.replaced then BranchKey(s, id) !in s'.stale else Due(s', BranchKey(s, id), s.ops[id].pid))
  {}

  /** The next stale sighting of k under pid is one to replace at. */
  predicate Due(s: State, k: Key, pid: nat) {
    k in s.stale && s.stale[k].pid == pid && s.stale[k].passes + 1 >= STALE_THRESHOLD
  }

  lemma DueIsAttempted(cfg: Config, s: State, id: Id, sight: Sight)
    requires Looks(s, id) && sight.staleInDaemon && sight.liveOnHost
    ensures Due(s, BranchKey(s, id), s.ops[id].pid) || STALE_THRESHOLD <= 1 <==> Attempted(s, BranchSeen(id, sight))
  {}

  /** The step does not drop the count of k: no driver start, no pass without its volume, and
      no look at that branch. */
  predicate Spares(s: State, e: Event, k: Key) {
    && !e.DriverRestart? && !e.NodeReboot?
    && (e.PassBegin? ==> k.id in e.ids)
    && (e.BranchSeen? && Looks(s, e.id) ==> BranchKey(s, e.id) != k)
  }

  lemma SparedStaysDue(cfg: Config, s: State, e: Event, k: Key, pid: nat)
    requires Enabled(cfg, s, e) && Spares(s, e, k) && Due(s, k, pid)
    ensures Due(Apply(cfg, s, e), k, pid)
  {
    if e.BranchSeen? {
      LookSpares(s, e.id, e.sight, k, pid);
    } else if !e.PassBegin? {
      StepIsTame(cfg, s, e);
    }
  }

  lemma LookSpares(s: State, id: Id, sight: Sight, k: Key, pid: nat)
    requires Looks(s, id) && BranchKey(s, id) != k && Due(s, k, pid)
    ensures Due(SeeBranch(s, id, sight), k, pid)
  {}

  ghost predicate AllSpare(cfg: Config, s: State, es: seq<Event>, k: Key)
    requires Runs(cfg, s, es)
    decreases |es|
  {
    es == [] || (Spares(s, es[0], k) && AllSpare(cfg, Apply(cfg, s, es[0]), es[1..], k))
  }

  lemma {:induction false} RunStaysDue(cfg: Config, s: State, es: seq<Event>, k: Key, pid: nat)
    requires Runs(cfg, s, es) && AllSpare(cfg, s, es, k) && Due(s, k, pid)
    ensures Due(After(cfg, s, es), k, pid)
    decreases |es|
  {
    if es != [] {
      SparedStaysDue(cfg, s, es[0], k, pid);
      RunStaysDue(cfg, Apply(cfg, s, es[0]), es[1..], k, pid);
    }
  }

  // ---- a lost branch stays lost until it is looked at ----

  /** While process pid runs for the volume of k it lacks branch i, which is the one of k. */
  ghost predicate StaysLost(s: State, k: Key, i: nat, pid: nat) {
    && pid < s.nextPid
    && (k.id in s.daemons && s.daemons[k.id].pid == pid ==>
          var d := s.daemons[k.id];
          i < |d.clones| == |d.started.branches| && d.clones[i].Lost? && d.started.branches[i].sandbox == k.branch)
  }

  /** The daemon is replaced by a newer one, or loses no branch and gets none back. */
  ghost predicate KeepsClones(s: State, s': State, id: Id) {
    && s.nextPid <= s'.nextPid
    && (id in s'.daemons ==>
          || s'.daemons[id].pid >= s.nextPid
          || (id in s.daemons && SameProcess(s.daemons[id], s'.daemons[id])
              && s'.daemons[id].clones == s.daemons[id].clones))
  }

  lemma PublishKeepsClones(cfg: Config, s: State, e: Event)
    requires (IsPublish(e) || IsStart(e)) && Enabled(cfg, s, e)
    ensures KeepsClones(s, Apply(cfg, s, e), e.id)
  {}

  lemma RemountKeepsClones(cfg: Config, s: State, e: Event)
    requires (IsUnpublish(e) || IsRemount(e)) && Enabled(cfg, s, e)
    ensures KeepsClones(s, Apply(cfg, s, e), e.id)
  {}

  lemma BeginKeepsClones(cfg: Config, s: State, id: Id, seen: Probed)
    ensures KeepsClones(s, BeginReconcile(cfg, s, id, seen), id)
  {}

  lemma DaemonKeepsClones(cfg: Config, s: State, e: Event)
    requires (e.RepairEnd? || e.DaemonExit? || e.DaemonStuck? || e.DaemonCut?) && Enabled(cfg, s, e)
    ensures KeepsClones(s, Apply(cfg, s, e), e.id)
  {}

  lemma OwnStepKeepsClones(cfg: Config, s: State, e: Event)
    requires !Environment(e) && !e.BranchSeen? && Enabled(cfg, s, e)
    ensures KeepsClones(s, Apply(cfg, s, e), e.id)
  {
    if IsPublish(e) || IsStart(e) {
      PublishKeepsClones(cfg, s, e);
    } else if IsUnpublish(e) || IsRemount(e) {
      RemountKeepsClones(cfg, s, e);
    } else if e.ReconcileBegin? {
      BeginKeepsClones(cfg, s, e.id, e.seen);
    } else {
      DaemonKeepsClones(cfg, s, e);
    }
  }

  /** A look at another branch leaves this one as it is. */
  lemma LookStaysLost(cfg: Config, s: State, id: Id, sight: Sight, k: Key, i: nat, pid: nat)
    requires id in cfg.targetOf && VolumeOk(cfg, s, id) && Looks(s, id)
    requires BranchKey(s, id) != k && StaysLost(s, k, i, pid)
    ensures StaysLost(SeeBranch(s, id, sight), k, i, pid)
  {
    if id == k.id && id in s.daemons {
      assert s.daemons[id].started == s.ops[id].st;
    }
  }

  lemma EnvironmentStaysLost(cfg: Config, s: State, e: Event, k: Key, i: nat, pid: nat)
    requires Environment(e) && Enabled(cfg, s, e) && StaysLost(s, k, i, pid)
    ensures StaysLost(Apply(cfg, s, e), k, i, pid)
  {}

  lemma OwnStaysLost(s: State, s': State, k: Key, i: nat, pid: nat)
    requires KeepsClones(s, s', k.id) && StaysLost(s, k, i, pid)
    ensures StaysLost(s', k, i, pid)
  {}

  lemma OthersStayLost(cfg: Config, s: State, s': State, mover: Id, k: Key, i: nat, pid: nat)
    requires mover in cfg.targetOf && mover != k.id && Confined(cfg, s, s', mover) && StaysLost(s, k, i, pid)
    ensures StaysLost(s', k, i, pid)
  {
    assert k.id in s.daemons <==> k.id in s'.daemons;
  }

  lemma VolumeStaysLost(cfg: Config, s: State, e: Event, k: Key, i: nat, pid: nat)
    requires GoodConfig(cfg) && Inv(cfg, s) && Enabled(cfg, s, e) && StaysLost(s, k, i, pid)
    requires !Environment(e) && e.id in cfg.targetOf && !e.BranchSeen?
    ensures StaysLost(Apply(cfg, s, e), k, i, pid)
  {
    if e.id == k.id {
      OwnStepKeepsClones(cfg, s, e);
      OwnStaysLost(s, Apply(cfg, s, e), k, i, pid);
    } else {
      VolumeStepsWell(cfg, s, e);
      OthersStayLost(cfg, s, Apply(cfg, s, e), e.id, k, i, pid);
    }
  }

  lemma StepStaysLost(cfg: Config, s: State, e: Event, k: Key, i: nat, pid: nat)
    requires GoodConfig(cfg) && Inv(cfg, s) && Enabled(cfg, s, e) && Spares(s, e, k) && StaysLost(s, k, i, pid)
    ensures StaysLost(Apply(cfg, s, e), k, i, pid)
  {
    if Environment(e) {
      EnvironmentStaysLost(cfg, s, e, k, i, pid);
    } else if e.id !in cfg.targetOf {
      StrangerDoesNothing(cfg, s, e);
    } else if e.BranchSeen? {
      LookStaysLost(cfg, s, e.id, e.sight, k, i, pid);
    } else {
      VolumeStaysLost(cfg, s, e, k, i, pid);
    }
  }

  lemma {:induction false} RunStaysLost(cfg: Config, s: State, es: seq<Event>, k: Key, i: nat, pid: nat)
    requires GoodConfig(cfg) && Inv(cfg, s) && Runs(cfg, s, es) && AllSpare(cfg, s, es, k) && StaysLost(s, k, i, pid)
    ensures StaysLost(After(cfg, s, es), k, i, pid)
    decreases |es|
  {
    if es != [] {
      StepStaysLost(cfg, s, es[0], k, i, pid);
      StepKeepsInv(cfg, s, es[0]);
      RunStaysLost(cfg, Apply(cfg, s, es[0]), es[1..], k, i, pid);
    }
  }

  lemma FailureLoses(cfg: Config, s: State, id: Id, failed: Sight)
    requires GoodConfig(cfg) && Inv(cfg, s) && id in cfg.targetOf && LooksAtDaemon(s, id)
    requires Attempted(s, BranchSeen(id, failed)) && !failed.replaced
    ensures StaysLost(Apply(cfg, s, BranchSeen(id, failed)), BranchKey(s, id), s.ops[id].next, s.ops[id].pid)
  {
    assert VolumeOk(cfg, s, id);
    ReplacementDecides(cfg, s, id, failed);
    TurnTouchesOneBranch(cfg, s, id, failed);
  }

  /** After a replacement that failed, whatever happens to other branches and volumes, to the
      mounts and to the daemons, the next look at the branch of the same process finds it still
      lost and replaces it again, if the mount table can be read and the branch is live on the
      host; and if that succeeds, it is served again. */
  lemma FailedReplacementIsRetried(cfg: Config, s: State, id: Id, failed: Sight, es: seq<Event>, s2: State,
                                   seen: Probed, sight: Sight)
    requires GoodConfig(cfg) && Inv(cfg, s) && id in cfg.targetOf
    requires LooksAtDaemon(s, id) && Attempted(s, BranchSeen(id, failed)) && !failed.replaced
    requires var s1 := Apply(cfg, s, BranchSeen(id, failed));
             RunsTo(cfg, s1, es, s2) && AllSpare(cfg, s1, es, BranchKey(s, id))
    requires LooksAtDaemon(s2, id) && s2.ops[id].next == s.ops[id].next && BranchKey(s2, id) == BranchKey(s, id)
             && s2.ops[id].pid == s.ops[id].pid && Honest(s2, id, seen, true, sight) && sight.liveOnHost
    ensures s2.daemons[id].clones[s2.ops[id].next].Lost? && Attempted(s2, BranchSeen(id, sight))
    ensures sight.replaced ==>
              SeeBranch(s2, id, sight).daemons[id].clones[s2.ops[id].next]
                == Here(s2.ops[id].st.branches[s2.ops[id].next])
  {
    var s1, k, pid := Apply(cfg, s, BranchSeen(id, failed)), BranchKey(s, id), s.ops[id].pid;
    ReplacementDecides(cfg, s, id, failed);
    FailureLoses(cfg, s, id, failed);
    StepKeepsInv(cfg, s, BranchSeen(id, failed));
    RunStaysLost(cfg, s1, es, k, s.ops[id].next, pid);
    RunStaysDue(cfg, s1, es, k, pid);
    LostIsStale(s2, id, seen, sight);
    DueIsAttempted(cfg, s2, id, sight);
    ReplacementDecides(cfg, s2, id, sight);
  }
}
