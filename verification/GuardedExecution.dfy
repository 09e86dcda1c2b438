/**
 What every run of the host keeps about command windows: commands run in order and at most
 once, each gated one on an approval of its own, each protected one behind a checkpoint of
 its own, and nothing runs after a failure, a refusal or a crash.
 */
module GuardedExecution {
  import opened Wrappers
  import opened FileTree
  import opened CheckpointSnapshot
  import opened HostState
  import opened HostMachine
  import Policy

  /** risk is what the policy made of the command and some local classification. */
  ghost predicate IsRiskOf(risk: Policy.EffectiveRisk, command: Command) {
    exists local :: risk == Policy.MergeRisk(local, command.llm)
  }

  /** The command may run: not blocked, gated only with an approval for exactly this place. */
  ghost predicate MayRun(
    h: History, run: RunId, index: nat, approval: Option<ApprovalId>, risk: Policy.EffectiveRisk, epoch: nat)
  {
    && run in h.runs && index < |h.runs[run].commands| && IsRiskOf(risk, h.runs[run].commands[index])
    && risk.level != Policy.Blocked
    && (approval.None? ==> risk.level == Policy.Low)
    && IsApprovalFor(h, approval, run, index, epoch)
  }

  predicate IsApprovalFor(h: History, approval: Option<ApprovalId>, run: RunId, index: nat, epoch: nat) {
    approval.Some? ==> approval.value in h.issued && h.issued[approval.value] == Issue(run, index, epoch)
  }

  /** A protected command has a checkpoint of its own, of the tree it is about to change. */
  predicate IsProtected(
    h: History, d: Disk, run: RunId, index: nat, risk: Policy.EffectiveRisk, checkpoint: Option<Id>,
    root: string, tree: Tree)
  {
    && (checkpoint.Some? <==> Policy.RequiresCheckpoint(risk.risk))
    && (checkpoint.Some? ==>
          && checkpoint.value in h.taken && checkpoint.value in d.rows
          && d.rows[checkpoint.value].workspace == root
          && h.taken[checkpoint.value].tree == tree
          && h.taken[checkpoint.value].run == run && h.taken[checkpoint.value].index == index)
  }

  ghost predicate StartFits(h: History, d: Disk, run: RunId, k: nat, s: Start) {
    && s.index == k && s.epoch <= h.epoch
    && MayRun(h, run, k, s.approval, s.risk, s.epoch)
    && IsProtected(h, d, run, k, s.risk, s.checkpoint, s.workspace, s.tree)
  }

  ghost predicate RunFits(h: History, d: Disk, run: RunId)
    requires run in h.runs
  {
    var r := h.runs[run];
    && |r.outcomes| <= |r.started| <= |r.outcomes| + 1
    && |r.started| <= |r.commands|
    && (forall k :: 0 <= k < |r.started| - 1 ==> r.outcomes[k])
    && (forall k :: 0 <= k < |r.started| ==> StartFits(h, d, run, k, r.started[k]))
  }

  /** Exactly the commands before index have run, and all of them succeeded. */
  predicate RanUpTo(h: History, run: RunId, index: nat) {
    && run in h.runs
    && |h.runs[run].started| == |h.runs[run].outcomes| == index <= |h.runs[run].commands|
    && forall k :: 0 <= k < index ==> h.runs[run].outcomes[k]
  }

  ghost predicate PendingFits(w: World, id: ApprovalId)
    requires w.memory.Some? && id in w.memory.value.pending && w.memory.value.pending[id].CommandAt?
  {
    var next := w.memory.value.pending[id];
    && id in w.history.issued && w.history.issued[id] == Issue(next.run, next.index, w.history.epoch)
    && RanUpTo(w.history, next.run, next.index)
    && next.index < |w.history.runs[next.run].commands|
    && !(w.pc.Window? && w.pc.run == next.run)
  }

  ghost predicate WindowFits(w: World) {
    w.pc.Window? ==>
      var h := w.history;
      && w.memory.Some? && w.pc.run in h.runs
      && (!w.pc.phase.Reporting? ==>
            w.pc.workspace in w.trees && IsApprovalFor(h, w.pc.approval, w.pc.run, w.pc.index, h.epoch))
      && match w.pc.phase
         case Choosing => RanUpTo(h, w.pc.run, w.pc.index)
         case Armed(risk, checkpoint) => IsArmed(w, risk, checkpoint)
         case Starting(risk, checkpoint) => IsArmed(w, risk, checkpoint)
         case Announced(risk, checkpoint) => IsArmed(w, risk, checkpoint)
         case Executing =>
           var r := h.runs[w.pc.run];
           && |r.started| == w.pc.index + 1 && |r.outcomes| == w.pc.index
           && forall k :: 0 <= k < w.pc.index ==> r.outcomes[k]
         case Reporting => true
  }

  ghost predicate IsArmed(w: World, risk: Policy.EffectiveRisk, checkpoint: Option<Id>)
    requires w.pc.Window? && w.pc.workspace in w.trees
  {
    && RanUpTo(w.history, w.pc.run, w.pc.index)
    && MayRun(w.history, w.pc.run, w.pc.index, w.pc.approval, risk, w.history.epoch)
    && IsProtected(w.history, w.disk, w.pc.run, w.pc.index, risk, checkpoint, w.pc.workspace, w.trees[w.pc.workspace])
    && (checkpoint.Some? ==> w.disk.rows[checkpoint.value].status == Ready)
  }

  ghost predicate OneContinuationPerRun(w: World) {
    w.memory.Some? ==>
      var pending := w.memory.value.pending;
      && (forall id :: id in pending && pending[id].CommandAt? ==> PendingFits(w, id))
      && (forall id, id' ::
            (id in pending && id' in pending && pending[id].CommandAt? && pending[id'].CommandAt?
             && pending[id].run == pending[id'].run) ==> id == id')
  }

  ghost predicate IdsAreKnown(w: World) {
    && (forall id :: id in w.history.issued ==> id in w.disk.approvals)
    && (forall c :: c in w.history.taken ==> c in w.disk.rows)
  }

  ghost predicate ExecInv(w: World) {
    && (forall run :: run in w.history.runs ==> RunFits(w.history, w.disk, run))
    && WindowFits(w) && OneContinuationPerRun(w) && IdsAreKnown(w)
  }

  // ---- steps that start nothing ----

  /** Nothing is started, and no continuation is gained. */
  ghost predicate Still(w: World, w': World) {
    && w'.history.runs == w.history.runs && w'.history.issued == w.history.issued
    && w'.history.taken == w.history.taken && w'.history.epoch >= w.history.epoch
    && (forall id :: id in w.disk.approvals ==> id in w'.disk.approvals)
    && (forall c :: c in w.disk.rows ==> c in w'.disk.rows && w'.disk.rows[c].workspace == w.disk.rows[c].workspace)
    && (w'.pc.Window? ==>
          && w'.pc == w.pc && w'.memory.Some? && w'.history.epoch == w.history.epoch
          && w'.trees.Keys >= w.trees.Keys
          && ((w.pc.phase.Armed? || w.pc.phase.Starting? || w.pc.phase.Announced?) && w.pc.workspace in w.trees ==>
                w'.trees[w.pc.workspace] == w.trees[w.pc.workspace] && w'.disk.rows == w.disk.rows))
    && (w'.memory.Some? ==> forall id :: id in w'.memory.value.pending && w'.memory.value.pending[id].CommandAt? ==>
          && w.memory.Some? && id in w.memory.value.pending
          && w.memory.value.pending[id] == w'.memory.value.pending[id]
          && w'.history.epoch == w.history.epoch)
  }

  lemma RunsStayFit(h: History, h': History, d: Disk, d': Disk, run: RunId)
    requires run in h.runs && RunFits(h, d, run)
    requires h'.runs == h.runs && h'.issued == h.issued && h'.taken == h.taken && h'.epoch >= h.epoch
    requires forall c :: c in d.rows ==> c in d'.rows && d'.rows[c].workspace == d.rows[c].workspace
    ensures RunFits(h', d', run)
  {
    hide IsRiskOf;
    forall k | 0 <= k < |h.runs[run].started| ensures StartFits(h', d', run, k, h.runs[run].started[k]) {
      assert StartFits(h, d, run, k, h.runs[run].started[k]);
    }
  }

  lemma StillKeeps(w: World, w': World)
    requires ExecInv(w) && Still(w, w')
    ensures ExecInv(w')
  {
    hide IsRiskOf, RunFits;
    forall run | run in w'.history.runs ensures RunFits(w'.history, w'.disk, run) {
      RunsStayFit(w.history, w'.history, w.disk, w'.disk, run);
    }
    assert WindowFits(w');
  }

  lemma ProcessIsStill(w: World, a: ProcessAction)
    requires WindowFits(w) && ProcessEnabled(w, a)
    ensures Still(w, ProcessApply(w, a))
  {
    hide WellFormed, RequiresRecovery;
  }

  lemma FieldsAreStill(w: World, a: FieldAction)
    requires FieldEnabled(w, a)
    ensures Still(w, FieldApply(w, a))
  {
  }

  lemma RollbackIsStill(w: World, a: RollbackAction)
    requires RollbackEnabled(w, a)
    ensures Still(w, RollbackApply(w, a))
  {
    if WritesRow(a) {
      RowWritesAreStill(w, a);
    } else {
      OtherRollbackIsStill(w, a);
    }
  }

  lemma RowWritesAreStill(w: World, a: RollbackAction)
    requires RollbackEnabled(w, a) && WritesRow(a)
    ensures Still(w, RollbackApply(w, a))
  {
  }

  lemma OtherRollbackIsStill(w: World, a: RollbackAction)
    requires RollbackEnabled(w, a) && !WritesRow(a)
    ensures Still(w, RollbackApply(w, a))
  {
  }

  predicate StartsNothing(a: ExecAction) {
    a.Block? || a.SaveFails? || a.Leave? || a.Mutate?
  }

  lemma ExecIsStill(w: World, a: ExecAction)
    requires ExecEnabled(w, a) && StartsNothing(a)
    ensures Still(w, ExecApply(w, a))
  {
    hide WellFormed, Capturable, IsSnapshotOf;
  }

  // ---- steps that move a command window on ----

  lemma StartingContractKeeps(w: World, a: ExecAction)
    requires ExecInv(w) && ExecEnabled(w, a) && a.StartContract?
    ensures ExecInv(ExecApply(w, a))
  {
    hide IsRiskOf, StartFits, WellFormed, Capturable, IsSnapshotOf;
    var w' := ExecApply(w, a);
    forall run | run in w'.history.runs ensures RunFits(w'.history, w'.disk, run) {
      if run != a.run { OtherRunStaysFit(w.history, w'.history, w.disk, w'.disk, run); }
    }
  }

  /** A run keeps fitting when other runs, approvals and checkpoints are added. */
  lemma OtherRunStaysFit(h: History, h': History, d: Disk, d': Disk, run: RunId)
    requires run in h.runs && RunFits(h, d, run)
    requires run in h'.runs && h'.runs[run] == h.runs[run] && h'.epoch >= h.epoch
    requires forall id :: id in h.issued ==> id in h'.issued && h'.issued[id] == h.issued[id]
    requires forall c :: c in h.taken ==> c in h'.taken && h'.taken[c] == h.taken[c]
    requires forall c :: c in d.rows ==> c in d'.rows && d'.rows[c].workspace == d.rows[c].workspace
    ensures RunFits(h', d', run)
  {
    hide IsRiskOf;
    forall k | 0 <= k < |h.runs[run].started| ensures StartFits(h', d', run, k, h.runs[run].started[k]) {
      assert StartFits(h, d, run, k, h.runs[run].started[k]);
    }
  }

  lemma ApprovingKeeps(w: World, a: ExecAction)
    requires ExecInv(w) && ExecEnabled(w, a) && a.Approve?
    ensures ExecInv(ExecApply(w, a))
  {
    hide IsRiskOf, RunFits, WellFormed, Capturable, IsSnapshotOf;
    var w' := ExecApply(w, a);
    assert PendingFits(w, a.id);
    forall run | run in w'.history.runs ensures RunFits(w'.history, w'.disk, run) {
      RunsStayFit(w.history, w'.history, w.disk, w'.disk, run);
    }
  }

  lemma AskingKeeps(w: World, a: ExecAction)
    requires ExecInv(w) && ExecEnabled(w, a) && a.Ask?
    ensures ExecInv(ExecApply(w, a))
  {
    hide IsRiskOf, RunFits, WellFormed, Capturable, IsSnapshotOf;
    var w' := ExecApply(w, a);
    forall run | run in w'.history.runs ensures RunFits(w'.history, w'.disk, run) {
      OtherRunStaysFit(w.history, w'.history, w.disk, w'.disk, run);
    }
    forall id | id in w'.memory.value.pending && w'.memory.value.pending[id].CommandAt? ensures PendingFits(w', id) {
      if id != a.id { assert PendingFits(w, id); }
    }
  }

  lemma ArmingKeeps(w: World, a: ExecAction)
    requires ExecInv(w) && ExecEnabled(w, a) && (a.Save? || a.Arm?)
    ensures ExecInv(ExecApply(w, a))
  {
    hide RunFits, WellFormed, Capturable, IsSnapshotOf;
    var w' := ExecApply(w, a);
    Policy.CheckpointedCommandsAreGated(a.local, w.history.runs[w.pc.run].commands[w.pc.index].llm);
    forall run | run in w'.history.runs ensures RunFits(w'.history, w'.disk, run) {
      OtherRunStaysFit(w.history, w'.history, w.disk, w'.disk, run);
    }
  }

  lemma AnnouncingKeeps(w: World, a: ExecAction)
    requires ExecInv(w) && ExecEnabled(w, a) && (a.SetRunning? || a.AnnounceCommand?)
    ensures ExecInv(ExecApply(w, a))
  {
    hide IsRiskOf, RunFits, WellFormed, Capturable, IsSnapshotOf;
    var w' := ExecApply(w, a);
    forall run | run in w'.history.runs ensures RunFits(w'.history, w'.disk, run) {
      RunsStayFit(w.history, w'.history, w.disk, w'.disk, run);
    }
  }

  lemma RunningKeeps(w: World, a: ExecAction)
    requires ExecInv(w) && ExecEnabled(w, a) && a.Run?
    ensures ExecInv(ExecApply(w, a))
  {
    hide IsRiskOf, WellFormed, Capturable, IsSnapshotOf;
    var w' := ExecApply(w, a);
    forall run | run in w'.history.runs ensures RunFits(w'.history, w'.disk, run) {
      if run != w.pc.run { OtherRunStaysFit(w.history, w'.history, w.disk, w'.disk, run); }
      else { OneStartMore(w, w'); }
    }
  }

  lemma OneStartMore(w: World, w': World)
    requires ExecInv(w) && ExecEnabled(w, Run) && w' == ExecApply(w, Run)
    ensures RunFits(w'.history, w'.disk, w.pc.run)
  {
    hide IsRiskOf, WellFormed, Capturable, IsSnapshotOf;
    var run := w.pc.run;
    assert RunFits(w.history, w.disk, run);
    var started := w'.history.runs[run].started;
    forall k | 0 <= k < |started| ensures StartFits(w'.history, w'.disk, run, k, started[k]) {
      if k < |started| - 1 { assert StartFits(w.history, w.disk, run, k, w.history.runs[run].started[k]); }
    }
  }

  lemma EndingKeeps(w: World, a: ExecAction)
    requires ExecInv(w) && ExecEnabled(w, a) && a.End?
    ensures ExecInv(ExecApply(w, a))
  {
    hide IsRiskOf, WellFormed, Capturable, IsSnapshotOf;
    var w' := ExecApply(w, a);
    forall run | run in w'.history.runs ensures RunFits(w'.history, w'.disk, run) {
      if run != w.pc.run { OtherRunStaysFit(w.history, w'.history, w.disk, w'.disk, run); }
      else {
        forall k | 0 <= k < |w.history.runs[run].started|
          ensures StartFits(w'.history, w'.disk, run, k, w.history.runs[run].started[k])
        {
          assert StartFits(w.history, w.disk, run, k, w.history.runs[run].started[k]);
        }
      }
    }
  }

  lemma ExecKeeps(w: World, a: ExecAction)
    requires ExecInv(w) && ExecEnabled(w, a)
    ensures ExecInv(ExecApply(w, a))
  {
    hide ExecInv, Still, ExecEnabled, ExecApply;
    match a
    case StartContract(_, _) => StartingContractKeeps(w, a);
    case Approve(_) => ApprovingKeeps(w, a);
    case Ask(_, _, _) => AskingKeeps(w, a);
    case Save(_, _, _, _, _) => ArmingKeeps(w, a);
    case Arm(_, _) => ArmingKeeps(w, a);
    case SetRunning => AnnouncingKeeps(w, a);
    case AnnounceCommand => AnnouncingKeeps(w, a);
    case Run => RunningKeeps(w, a);
    case End(_) => EndingKeeps(w, a);
    case _ =>
      ExecIsStill(w, a);
      StillKeeps(w, ExecApply(w, a));
  }

  lemma StepKeeps(w: World, a: Action)
    requires ExecInv(w) && Enabled(w, a)
    ensures ExecInv(Apply(w, a))
  {
    hide ExecInv, Still, ProcessEnabled, ProcessApply, FieldEnabled, FieldApply, RollbackEnabled, RollbackApply,
      ExecEnabled, ExecApply, RestoreAllows;
    assert WindowFits(w) by { InvFitsWindow(w); }
    match a
    case Process(p) => ProcessIsStill(w, p); StillKeeps(w, Apply(w, a));
    case Fields(f) => FieldsAreStill(w, f); StillKeeps(w, Apply(w, a));
    case Rollback(r) => RollbackIsStill(w, r); StillKeeps(w, Apply(w, a));
    case Exec(e) => ExecKeeps(w, e);
  }

  lemma InvFitsWindow(w: World)
    requires ExecInv(w)
    ensures WindowFits(w)
  {
  }

  lemma InitialIsFine(w: World)
    requires Initial(w)
    ensures ExecInv(w)
  {
  }

  lemma {:induction false} RunKeeps(trail: seq<World>, n: nat)
    requires IsRun(trail) && n < |trail|
    ensures ExecInv(trail[n])
  {
    hide ExecInv, Initial, Enabled, Apply;
    if n == 0 {
      InitialIsFine(trail[0]);
    } else {
      RunKeeps(trail, n - 1);
      assert StepAt(trail, n - 1);
      var a :| Enabled(trail[n - 1], a) && trail[n] == Apply(trail[n - 1], a);
      StepKeeps(trail[n - 1], a);
    }
  }

  // ---- approvals are granted before anything runs on them ----

  predicate IsGranted(d: Disk, id: ApprovalId) {
    id in d.approvals && d.approvals[id] == Approved
  }

  ghost predicate StartsAreGranted(h: History, d: Disk) {
    forall run, k :: run in h.runs && 0 <= k < |h.runs[run].started| && h.runs[run].started[k].approval.Some? ==>
      IsGranted(d, h.runs[run].started[k].approval.value)
  }

  /** What pends in memory pends on the disk, and what a window or a start relies on is granted. */
  ghost predicate GrantInv(w: World) {
    && (w.memory.Some? ==> forall id :: id in w.memory.value.pending ==>
          id in w.disk.approvals && w.disk.approvals[id] == Pending)
    && (w.pc.Window? && w.pc.approval.Some? ==> IsGranted(w.disk, w.pc.approval.value))
    && StartsAreGranted(w.history, w.disk)
  }

  lemma GrantsStay(h: History, d: Disk, d': Disk)
    requires StartsAreGranted(h, d) && forall id :: IsGranted(d, id) ==> IsGranted(d', id)
    ensures StartsAreGranted(h, d')
  {
  }

  lemma ProcessGrants(w: World, a: ProcessAction)
    requires GrantInv(w) && ProcessEnabled(w, a)
    ensures GrantInv(ProcessApply(w, a))
  {
    hide WellFormed, RequiresRecovery;
  }

  lemma FieldsGrant(w: World, a: FieldAction)
    requires GrantInv(w) && FieldEnabled(w, a)
    ensures GrantInv(FieldApply(w, a))
  {
    hide StartsAreGranted;
    GrantsStay(w.history, w.disk, FieldApply(w, a).disk);
    SameStarts(w.history, FieldApply(w, a).history, FieldApply(w, a).disk);
  }

  lemma SameStarts(h: History, h': History, d: Disk)
    requires StartsAreGranted(h, d) && h'.runs == h.runs
    ensures StartsAreGranted(h', d)
  {
  }

  lemma RollbackGrants(w: World, a: RollbackAction)
    requires GrantInv(w) && RollbackEnabled(w, a)
    ensures GrantInv(RollbackApply(w, a))
  {
    hide StartsAreGranted;
    GrantsStay(w.history, w.disk, RollbackApply(w, a).disk);
    SameStarts(w.history, RollbackApply(w, a).history, RollbackApply(w, a).disk);
  }

  lemma ExecGrants(w: World, a: ExecAction)
    requires GrantInv(w) && ExecEnabled(w, a)
    ensures GrantInv(ExecApply(w, a))
  {
    if a.Run? || a.End? || a.StartContract? {
      RunningGrants(w, a);
    } else {
      WaitingGrants(w, a);
    }
  }

  lemma RunningGrants(w: World, a: ExecAction)
    requires GrantInv(w) && ExecEnabled(w, a) && (a.Run? || a.End? || a.StartContract?)
    ensures GrantInv(ExecApply(w, a))
  {
    hide WellFormed, Capturable, IsSnapshotOf;
  }

  lemma WaitingGrants(w: World, a: ExecAction)
    requires GrantInv(w) && ExecEnabled(w, a) && !a.Run? && !a.End? && !a.StartContract?
    ensures GrantInv(ExecApply(w, a))
  {
    hide WellFormed, Capturable, IsSnapshotOf, StartsAreGranted;
    GrantsStay(w.history, w.disk, ExecApply(w, a).disk);
    SameStarts(w.history, ExecApply(w, a).history, ExecApply(w, a).disk);
  }

  lemma StepGrants(w: World, a: Action)
    requires GrantInv(w) && Enabled(w, a)
    ensures GrantInv(Apply(w, a))
  {
    hide GrantInv, ProcessEnabled, ProcessApply, FieldEnabled, FieldApply, RollbackEnabled, RollbackApply,
      ExecEnabled, ExecApply, RestoreAllows;
    match a
    case Process(p) => ProcessGrants(w, p);
    case Fields(f) => FieldsGrant(w, f);
    case Rollback(r) => RollbackGrants(w, r);
    case Exec(e) => ExecGrants(w, e);
  }

  lemma {:induction false} RunGrants(trail: seq<World>, n: nat)
    requires IsRun(trail) && n < |trail|
    ensures GrantInv(trail[n])
  {
    hide Enabled, Apply;
    if n > 0 {
      hide GrantInv;
      RunGrants(trail, n - 1);
      assert StepAt(trail, n - 1);
      var a :| Enabled(trail[n - 1], a) && trail[n] == Apply(trail[n - 1], a);
      StepGrants(trail[n - 1], a);
    }
  }

  // ---- the main results, for every moment of every run ----

  /**
   The commands of a contract run in order, each at most once, and nothing runs after one
   that failed or was cut off.
   */
  lemma CommandsRunInOrder(trail: seq<World>, n: nat, run: RunId, k: nat)
    requires IsRun(trail) && n < |trail| && run in trail[n].history.runs
    requires k < |trail[n].history.runs[run].started|
    ensures var r := trail[n].history.runs[run];
            && r.started[k].index == k < |r.commands|
            && (k + 1 < |r.started| ==> k < |r.outcomes| && r.outcomes[k])
  {
    hide IsRun;
    RunKeeps(trail, n);
    var w := trail[n];
    assert RunFits(w.history, w.disk, run);
    assert StartFits(w.history, w.disk, run, k, w.history.runs[run].started[k]);
  }

  /**
   A blocked command never runs, and a gated one runs only on an approval that was asked for
   at exactly its place in its contract, since the last crash before it, and for no other.
   That approval has been granted, and stays so, and nothing can be approved on it again.
   */
  lemma GatedCommandsHaveTheirApproval(trail: seq<World>, n: nat, run: RunId, k: nat, other: RunId, j: nat)
    requires IsRun(trail) && n < |trail| && run in trail[n].history.runs && other in trail[n].history.runs
    requires k < |trail[n].history.runs[run].started| && j < |trail[n].history.runs[other].started|
    ensures var h := trail[n].history;
            var s, s' := h.runs[run].started[k], h.runs[other].started[j];
            && k < |h.runs[run].commands| && IsRiskOf(s.risk, h.runs[run].commands[k]) && s.risk.level != Policy.Blocked
            && (s.risk.level == Policy.Approval ==> s.approval.Some?)
            && (s.approval.Some? ==>
                  && s.approval.value in h.issued && h.issued[s.approval.value] == Issue(run, k, s.epoch)
                  && IsGranted(trail[n].disk, s.approval.value)
                  && (trail[n].memory.Some? ==> s.approval.value !in trail[n].memory.value.pending))
            && (s.approval.Some? && s.approval == s'.approval ==> run == other && k == j)
  {
    hide IsRun, IsRiskOf;
    RunKeeps(trail, n);
    RunGrants(trail, n);
    var w := trail[n];
    assert RunFits(w.history, w.disk, run) && RunFits(w.history, w.disk, other);
    assert StartFits(w.history, w.disk, run, k, w.history.runs[run].started[k]);
    assert StartFits(w.history, w.disk, other, j, w.history.runs[other].started[j]);
  }

  /**
   A command that starts has a checkpoint exactly if its risk is R2 or more, and then a human
   has approved it; R4 never starts.  The checkpoint is durable and of the tree the command
   started from, and it is shared with no other.
   */
  lemma ProtectedCommandsHaveTheirCheckpoint(trail: seq<World>, n: nat, run: RunId, k: nat, other: RunId, j: nat)
    requires IsRun(trail) && n < |trail| && run in trail[n].history.runs && other in trail[n].history.runs
    requires k < |trail[n].history.runs[run].started| && j < |trail[n].history.runs[other].started|
    ensures var w := trail[n];
            var s, s' := w.history.runs[run].started[k], w.history.runs[other].started[j];
            && (s.checkpoint.Some? <==> Policy.Rank(s.risk.risk) >= Policy.Rank(Policy.R2))
            && Policy.Rank(s.risk.risk) < Policy.Rank(Policy.R4)
            && (s.checkpoint.Some? ==> s.approval.Some?)
            && (s.checkpoint.Some? ==>
                  && s.checkpoint.value in w.disk.rows && s.checkpoint.value in w.history.taken
                  && w.disk.rows[s.checkpoint.value].workspace == s.workspace
                  && w.history.taken[s.checkpoint.value].tree == s.tree)
            && (s.checkpoint.Some? && s.checkpoint == s'.checkpoint ==> run == other && k == j)
  {
    hide IsRun;
    RunKeeps(trail, n);
    var w := trail[n];
    assert RunFits(w.history, w.disk, run) && RunFits(w.history, w.disk, other);
    var s := w.history.runs[run].started[k];
    assert StartFits(w.history, w.disk, run, k, s);
    assert StartFits(w.history, w.disk, other, j, w.history.runs[other].started[j]);
    RiskIsMerged(s.risk, w.history.runs[run].commands[k]);
  }

  /**
   At the moment a command starts it has a checkpoint exactly if its risk is R2 or more, and
   that is ready on the disk and of the tree the command will change.
   */
  lemma CheckpointIsReadyAtTheStart(trail: seq<World>, n: nat)
    requires IsRun(trail) && n < |trail| && Enabled(trail[n], Exec(Run))
    ensures var w, phase := trail[n], trail[n].pc.phase;
            && (phase.checkpoint.Some? <==> Policy.Rank(phase.risk.risk) >= Policy.Rank(Policy.R2))
            && Policy.Rank(phase.risk.risk) < Policy.Rank(Policy.R4)
            && (phase.checkpoint.Some? ==>
                  var c := phase.checkpoint.value;
                  && IsReadyFor(w.disk, c, w.pc.workspace)
                  && c in w.history.taken && w.history.taken[c].tree == w.trees[w.pc.workspace])
  {
    hide IsRun, RunFits, IsRiskOf, Policy.RequiresCheckpoint, Policy.Rank;
    RunKeeps(trail, n);
    var w := trail[n];
    assert IsArmed(w, w.pc.phase.risk, w.pc.phase.checkpoint);
    RiskIsMerged(w.pc.phase.risk, w.history.runs[w.pc.run].commands[w.pc.index]);
  }

  lemma RiskIsMerged(risk: Policy.EffectiveRisk, command: Command)
    requires IsRiskOf(risk, command) && risk.level != Policy.Blocked
    ensures Policy.RequiresCheckpoint(risk.risk) <==> Policy.Rank(risk.risk) >= Policy.Rank(Policy.R2)
    ensures Policy.Rank(risk.risk) < Policy.Rank(Policy.R4)
    ensures Policy.Rank(risk.risk) >= Policy.Rank(Policy.R2) ==> risk.level == Policy.Approval
  {
    var local :| risk == Policy.MergeRisk(local, command.llm);
    Policy.CheckpointedCommandsAreGated(local, command.llm);
  }

  predicate IsReadyFor(d: Disk, c: Id, root: string) {
    c in d.rows && d.rows[c].status == Ready && d.rows[c].workspace == root
  }

  /** Something may still run for the contract: its window is open, or an approval for it pends. */
  ghost predicate IsAlive(w: World, run: RunId) {
    && w.memory.Some?
    && ((w.pc.Window? && w.pc.run == run && !w.pc.phase.Reporting?)
        || exists id :: id in w.memory.value.pending && w.memory.value.pending[id].CommandAt?
                        && w.memory.value.pending[id].run == run)
  }

  lemma DeadInStillStep(w: World, w': World, run: RunId)
    requires WindowFits(w) && Still(w, w') && run in w.history.runs && !IsAlive(w, run)
    ensures !IsAlive(w', run) && w'.history.runs == w.history.runs
  {
  }

  lemma DeadInExecStep(w: World, a: ExecAction, run: RunId)
    requires ExecEnabled(w, a) && run in w.history.runs && !IsAlive(w, run)
    ensures !IsAlive(ExecApply(w, a), run)
    ensures run in ExecApply(w, a).history.runs
    ensures ExecApply(w, a).history.runs[run].started == w.history.runs[run].started
  {
    hide WellFormed, Capturable, IsSnapshotOf;
  }

  /** A contract that is over stays over. */
  lemma DeadRunsStayDead(w: World, a: Action, run: RunId)
    requires WindowFits(w) && Enabled(w, a) && run in w.history.runs && !IsAlive(w, run)
    ensures !IsAlive(Apply(w, a), run)
    ensures run in Apply(w, a).history.runs && Apply(w, a).history.runs[run].started == w.history.runs[run].started
  {
    hide ProcessEnabled, ProcessApply, FieldEnabled, FieldApply, RollbackEnabled, RollbackApply, ExecEnabled, ExecApply,
      RestoreAllows, Still, IsAlive, WindowFits;
    match a
    case Process(p) => ProcessIsStill(w, p); DeadInStillStep(w, Apply(w, a), run);
    case Fields(f) => FieldsAreStill(w, f); DeadInStillStep(w, Apply(w, a), run);
    case Rollback(r) => RollbackIsStill(w, r); DeadInStillStep(w, Apply(w, a), run);
    case Exec(e) => DeadInExecStep(w, e, run);
  }

  /** What ends a contract: a crash, a refusal, a block, a failed checkpoint or a failed command. */
  predicate EndsRun(w: World, a: Action, run: RunId) {
    match a
    case Process(p) => p.Crash?
    case Fields(f) =>
      f.RejectCommand? && w.memory.Some? && f.id in w.memory.value.pending
      && w.memory.value.pending[f.id].CommandAt? && w.memory.value.pending[f.id].run == run
    case Exec(e) =>
      w.pc.Window? && w.pc.run == run && (e.Block? || e.SaveFails? || e == End(false) || e.Leave?)
    case Rollback(r) => r.ClearFields?
  }

  /** The contract of an open window, or of a pending approval, has no other continuation. */
  lemma OnlyContinuation(w: World, run: RunId)
    requires ExecInv(w) && w.memory.Some?
    ensures w.pc.Window? && w.pc.run == run ==>
              forall id :: id in w.memory.value.pending && w.memory.value.pending[id].CommandAt? ==>
                w.memory.value.pending[id].run != run
    ensures forall id, other ::
              (id in w.memory.value.pending && w.memory.value.pending[id].CommandAt?
               && w.memory.value.pending[id].run == run && other in w.memory.value.pending
               && w.memory.value.pending[other].CommandAt? && other != id) ==>
                w.memory.value.pending[other].run != run
  {
    hide RunFits, WindowFits;
    forall id | id in w.memory.value.pending && w.memory.value.pending[id].CommandAt? ensures PendingFits(w, id) { }
  }

  lemma EndedByExec(w: World, a: ExecAction, run: RunId)
    requires ExecInv(w) && ExecEnabled(w, a) && EndsRun(w, Exec(a), run)
    ensures !IsAlive(ExecApply(w, a), run)
  {
    hide ExecInv, WellFormed, Capturable, IsSnapshotOf;
    OnlyContinuation(w, run);
  }

  lemma EndedByRejection(w: World, a: FieldAction, run: RunId)
    requires ExecInv(w) && FieldEnabled(w, a) && EndsRun(w, Fields(a), run)
    ensures !IsAlive(FieldApply(w, a), run)
  {
    hide ExecInv;
    OnlyContinuation(w, run);
  }

  lemma EndedRunsAreDead(w: World, a: Action, run: RunId)
    requires ExecInv(w) && Enabled(w, a) && EndsRun(w, a, run)
    ensures !IsAlive(Apply(w, a), run)
  {
    match a
    case Process(p) =>
    case Fields(f) =>
      hide FieldEnabled, FieldApply, ExecInv, IsAlive, EndsRun;
      EndedByRejection(w, f, run);
    case Exec(e) =>
      hide ExecEnabled, ExecApply, ExecInv, IsAlive, EndsRun;
      EndedByExec(w, e, run);
    case Rollback(r) =>
      hide ExecInv, RestoreAllows;
  }

  lemma {:induction false} DeadForGood(trail: seq<World>, n: nat, later: nat, run: RunId)
    requires IsRun(trail) && n <= later < |trail| && run in trail[n].history.runs && !IsAlive(trail[n], run)
    ensures run in trail[later].history.runs
    ensures trail[later].history.runs[run].started == trail[n].history.runs[run].started
    decreases later - n
  {
    hide ExecInv, WindowFits, IsAlive, Enabled, Apply;
    if n < later {
      RunKeeps(trail, n);
      InvFitsWindow(trail[n]);
      assert StepAt(trail, n);
      var a :| Enabled(trail[n], a) && trail[n + 1] == Apply(trail[n], a);
      DeadRunsStayDead(trail[n], a, run);
      DeadForGood(trail, n + 1, later, run);
    }
  }

  /**
   Whatever ends a contract ends it for good: no command of it starts at any later moment,
   whoever approves what and however often the host is restarted.
   */
  lemma NothingRunsAfterTheEnd(trail: seq<World>, n: nat, a: Action, later: nat, run: RunId)
    requires IsRun(trail) && n < later < |trail| && run in trail[n].history.runs
    requires Enabled(trail[n], a) && trail[n + 1] == Apply(trail[n], a) && EndsRun(trail[n], a, run)
    ensures run in trail[later].history.runs
    ensures trail[later].history.runs[run].started == trail[n].history.runs[run].started
  {
    hide ExecInv, WindowFits, IsAlive, Enabled, Apply, EndsRun;
    RunKeeps(trail, n);
    InvFitsWindow(trail[n]);
    EndedRunsAreDead(trail[n], a, run);
    EndStartsNothing(trail[n], a, run);
    DeadForGood(trail, n + 1, later, run);
  }

  lemma EndStartsNothing(w: World, a: Action, run: RunId)
    requires Enabled(w, a) && EndsRun(w, a, run) && run in w.history.runs
    ensures run in Apply(w, a).history.runs && Apply(w, a).history.runs[run].started == w.history.runs[run].started
  {
    hide RestoreAllows, WellFormed, Capturable, IsSnapshotOf;
  }
}
