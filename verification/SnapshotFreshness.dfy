/**
 A thread takes its snapshot of the fields and writes it some time later, so that what is
 durable may be out of date.  What of it restarts can rely on, and exactly which writes
 make them forget a checkpoint or ask about one that is done with.
 */
module SnapshotFreshness {
  import opened Wrappers
  import opened FileTree
  import opened HostState
  import opened HostMachine
  import opened RollbackProtocol

  /** What is not marked as old is about the checkpoint that the memory is about. */
  ghost predicate DraftsAgree(w: World) {
    var f := w.history.freshness;
    && f.oldDrafts <= w.drafts.Keys
    && forall t :: t in w.drafts && t !in f.oldDrafts ==> ContextId(w.drafts[t].context) == f.context
  }

  predicate DiskAgrees(w: World) {
    !w.history.freshness.diskIsOld ==> DiskContext(w.disk) == w.history.freshness.context
  }

  predicate OwnAgrees(w: World) {
    w.own.Some? ==> IsAboutToPersist(w.pc) && ContextId(w.own.value.context) == w.history.freshness.context
  }

  /** What is older than the naming of a checkpoint does not name it. */
  ghost predicate OldIsBlind(w: World) {
    var f := w.history.freshness;
    f.context.Some? ==>
      && (forall t :: t in f.oldDrafts && t in w.drafts ==> ContextId(w.drafts[t].context) != f.context)
      && (f.diskIsOld ==> DiskContext(w.disk) != f.context)
  }

  ghost predicate NobodyNames(w: World, c: Id) {
    && w.history.freshness.context != Some(c) && DiskContext(w.disk) != Some(c)
    && forall t :: t in w.drafts ==> ContextId(w.drafts[t].context) != Some(c)
  }

  ghost predicate ClaimIsNews(w: World) {
    w.pc.Won? ==> NobodyNames(w, w.pc.c)
  }

  ghost predicate SnapshotsAgree(w: World) {
    DraftsAgree(w) && DiskAgrees(w) && OwnAgrees(w) && OldIsBlind(w) && ClaimIsNews(w)
  }

  // ---- every step keeps it ----

  /** A step that neither takes nor writes a snapshot, nor changes what the memory is about. */
  predicate LeavesSnapshots(w: World, w': World) {
    && w'.drafts == w.drafts && w'.own == w.own && w'.disk.runtime == w.disk.runtime
    && w'.history.freshness == w.history.freshness
    && (w.own.Some? ==> w'.pc == w.pc)
    && (w'.pc.Won? ==> w'.pc == w.pc)
  }

  lemma LeavingKeeps(w: World, w': World)
    requires SnapshotsAgree(w) && LeavesSnapshots(w, w')
    ensures SnapshotsAgree(w')
  {
  }

  predicate TouchesSnapshots(a: Action) {
    match a
    case Process(p) => !p.Edit?
    case Fields(f) => f.TakeSnapshot? || f.WriteSnapshot? || f.TakeOwn?
    case Rollback(r) => ChangesFocus(r) || r.Claim? || r.Announce? || r.ConfirmClaim? || r.SealRollback? || r.SealDecision?
    case Exec(e) => e.AnnounceCommand?
  }

  predicate ChangesFocus(a: RollbackAction) {
    a.NameCheckpoint? || a.FinishFields? || a.ClearFields?
  }

  lemma MostStepsLeave(w: World, a: Action)
    requires OwnAgrees(w) && Enabled(w, a) && !TouchesSnapshots(a)
    ensures LeavesSnapshots(w, Apply(w, a))
  {
    match a
    case Process(p) =>
    case Fields(f) => FieldsLeave(w, f);
    case Rollback(r) => RollbackLeaves(w, r);
    case Exec(e) => ExecLeaves(w, e);
  }

  lemma FieldsLeave(w: World, a: FieldAction)
    requires OwnAgrees(w) && FieldEnabled(w, a) && !TouchesSnapshots(Fields(a))
    ensures LeavesSnapshots(w, FieldApply(w, a))
  {
  }

  lemma RollbackLeaves(w: World, a: RollbackAction)
    requires OwnAgrees(w) && RollbackEnabled(w, a) && !TouchesSnapshots(Rollback(a))
    ensures LeavesSnapshots(w, RollbackApply(w, a))
  {
  }

  lemma ExecLeaves(w: World, a: ExecAction)
    requires OwnAgrees(w) && ExecEnabled(w, a) && !TouchesSnapshots(Exec(a))
    ensures LeavesSnapshots(w, ExecApply(w, a))
  {
    hide WellFormed;
  }

  lemma ProcessAgrees(w: World, a: ProcessAction)
    requires RollbackInv(w) && SnapshotsAgree(w) && ProcessEnabled(w, a) && !a.Edit?
    ensures SnapshotsAgree(ProcessApply(w, a))
  {
    hide RestoredMemory, Finds;
    assert w.memory.None? ==> w.pc.Free?;
  }

  lemma DraftsKeep(w: World, a: FieldAction)
    requires FocusFits(w) && SnapshotsAgree(w) && FieldEnabled(w, a)
    requires a.TakeSnapshot? || a.WriteSnapshot? || a.TakeOwn?
    ensures SnapshotsAgree(FieldApply(w, a))
  {
  }

  lemma PersistKeeps(w: World, a: RollbackAction)
    requires SnapshotsAgree(w) && RollbackEnabled(w, a)
    requires a.Announce? || a.ConfirmClaim? || a.SealRollback? || a.SealDecision?
    ensures SnapshotsAgree(RollbackApply(w, a))
  {
  }

  lemma AnnouncingKeepsSnapshots(w: World, a: ExecAction)
    requires SnapshotsAgree(w) && ExecEnabled(w, a) && a.AnnounceCommand?
    ensures SnapshotsAgree(ExecApply(w, a))
  {
  }

  /** Nothing names a checkpoint that is still ready. */
  lemma ClaimKeeps(w: World, a: RollbackAction)
    requires RollbackInv(w) && SnapshotsAgree(w) && RollbackEnabled(w, a) && a.Claim?
    ensures SnapshotsAgree(RollbackApply(w, a))
  {
    hide EnteredAtMostOnce, RollingIsOpen, OpenIsNamed, SettledIsSettled;
    ReadyIsUnnamed(w, w.pc.c);
  }

  lemma ReadyIsUnnamed(w: World, c: Id)
    requires RollbackInv(w) && w.memory.Some? && c in w.disk.rows && w.disk.rows[c].status == Ready
    ensures NobodyNames(w, c)
  {
    assert !WasClaimed(w.disk, c);
  }

  lemma FocusKeeps(w: World, a: RollbackAction)
    requires PcFitsRow(w) && SnapshotsAgree(w) && RollbackEnabled(w, a) && ChangesFocus(a)
    ensures SnapshotsAgree(RollbackApply(w, a))
  {
  }

  lemma StepAgrees(w: World, a: Action)
    requires RollbackInv(w) && SnapshotsAgree(w) && Enabled(w, a)
    ensures SnapshotsAgree(Apply(w, a))
  {
    hide RollbackInv, SnapshotsAgree, ProcessEnabled, ProcessApply, FieldEnabled, FieldApply, RollbackEnabled,
      RollbackApply, ExecEnabled, ExecApply, RestoreAllows, LeavesSnapshots, ChangesFocus;
    InvFits(w);
    if !TouchesSnapshots(a) {
      MostStepsLeave(w, a);
      LeavingKeeps(w, Apply(w, a));
    } else {
      match a
      case Process(p) => ProcessAgrees(w, p);
      case Fields(f) => DraftsKeep(w, f);
      case Rollback(r) =>
        if r.Claim? { ClaimKeeps(w, r); }
        else if ChangesFocus(r) { FocusKeeps(w, r); }
        else { PersistKeeps(w, r); }
      case Exec(e) => AnnouncingKeepsSnapshots(w, e);
    }
  }

  lemma InvFits(w: World)
    requires RollbackInv(w)
    ensures PcFitsRow(w) && FocusFits(w)
    ensures SnapshotsAgree(w) ==> OwnAgrees(w) && DraftsAgree(w)
  {
  }

  lemma {:induction false} RunAgrees(trail: seq<World>, n: nat)
    requires IsRun(trail) && n < |trail|
    ensures RollbackInv(trail[n]) && SnapshotsAgree(trail[n])
  {
    RunKeeps(trail, n);
    if n > 0 {
      hide RollbackInv, SnapshotsAgree, Enabled, Apply;
      RunAgrees(trail, n - 1);
      assert StepAt(trail, n - 1);
      var a :| Enabled(trail[n - 1], a) && trail[n] == Apply(trail[n - 1], a);
      StepAgrees(trail[n - 1], a);
    }
  }

  // ---- which crashes are followed by a question about the open checkpoint ----

  /** Whatever row a restart finds, it ends up about c. */
  ghost predicate Asks(d: Disk, c: Id) {
    forall found :: Finds(d, found) ==> Names(RestoredMemory(d, found).context, c)
  }

  lemma SomethingIsFound(w: World)
    requires RollbackInv(w)
    ensures Finds(w.disk, if w.history.open.Some? && IsRolling(w.disk, w.history.open.value) then w.history.open else None)
  {
    forall c: Id ensures IsRollingBackIn(w.disk, c) ==> IsRolling(w.disk, c) { }
  }

  lemma AsksIff(w: World, c: Id)
    requires RollbackInv(w) && SnapshotsAgree(w) && w.history.open == Some(c)
    ensures Asks(w.disk, c) <==> IsRolling(w.disk, c) || !w.history.freshness.diskIsOld
  {
    hide RestoredMemory, EnteredAtMostOnce, SettledIsSettled, DraftsAgree;
    SomethingIsFound(w);
    forall found | Finds(w.disk, found)
      ensures Names(RestoredMemory(w.disk, found).context, c) <==> IsRolling(w.disk, c) || !w.history.freshness.diskIsOld
    {
      FoundIsOpen(w, found);
      RestartAsks(w.disk, found);
    }
  }

  /**
   Recovery completeness.  Crash at any moment between the claim of a checkpoint and the end
   of its rollback or a human decision.  While the row is rolling back, and as long as what
   is durable was taken after the checkpoint was named, the restart lands in
   recovery_required, names that checkpoint with its current status, and can do nothing.
   Otherwise it does not know of the checkpoint any more.
   */
  lemma RestartAsksAboutOpenCheckpointIff(trail: seq<World>, n: nat, c: Id, found: Option<Id>)
    requires IsRun(trail) && n < |trail| && trail[n].history.open == Some(c) && Finds(trail[n].disk, found)
    ensures var d, m := trail[n].disk, RestoredMemory(trail[n].disk, found);
            && c in d.rows
            && (Names(m.context, c) <==> IsRolling(d, c) || !trail[n].history.freshness.diskIsOld)
            && (Names(m.context, c) ==>
                  m == Memory(Lifecycle.RecoveryRequired, Activity.RecoveryRequired, true,
                              d.runtime.Some? && d.runtime.value.guarded, map[],
                              Some(Context(c, d.rows[c].status)), false))
  {
    hide IsRun, RestoredMemory;
    var w := trail[n];
    RunAgrees(trail, n);
    FoundIsOpen(w, found);
    RestartAsks(w.disk, found);
  }

  /** What ends the rolling back of a row without ending the recovery. */
  predicate EndsRolling(a: Action) {
    a.Rollback? && (a.rollback.FailRow? || a.rollback.CompleteRow?)
  }

  predicate WritesOld(w: World, a: Action) {
    a.Fields? && a.fields.WriteSnapshot? && a.fields.thread in w.history.freshness.oldDrafts
  }

  predicate WritesFresh(w: World, a: Action) {
    match a
    case Process(_) => false
    case Fields(f) => f.WriteSnapshot? && f.thread !in w.history.freshness.oldDrafts
    case Rollback(r) => r.Announce? || r.ConfirmClaim? || r.SealRollback? || r.SealDecision?
    case Exec(e) => e.AnnounceCommand?
  }

  predicate DiskIsOldAfter(w: World, a: Action) {
    WritesOld(w, a) || (w.history.freshness.diskIsOld && !WritesFresh(w, a))
  }

  lemma AgeOfDisk(w: World, a: Action)
    requires Enabled(w, a) && !(a.Process? && a.process.Boot?) && !(a.Rollback? && ChangesFocus(a.rollback))
    ensures Apply(w, a).history.freshness.diskIsOld == DiskIsOldAfter(w, a)
  {
    match a
    case Process(p) =>
    case Fields(f) => AgeAfterFields(w, f);
    case Rollback(r) => AgeAfterRollback(w, r);
    case Exec(e) => AgeAfterExec(w, e);
  }

  lemma AgeAfterFields(w: World, a: FieldAction)
    requires FieldEnabled(w, a)
    ensures FieldApply(w, a).history.freshness.diskIsOld == DiskIsOldAfter(w, Fields(a))
  {
  }

  lemma AgeAfterRollback(w: World, a: RollbackAction)
    requires RollbackEnabled(w, a) && !ChangesFocus(a)
    ensures RollbackApply(w, a).history.freshness.diskIsOld == DiskIsOldAfter(w, Rollback(a))
  {
  }

  lemma AgeAfterExec(w: World, a: ExecAction)
    requires ExecEnabled(w, a)
    ensures ExecApply(w, a).history.freshness.diskIsOld == DiskIsOldAfter(w, Exec(a))
  {
    hide WellFormed;
  }

  lemma RollingAfter(w: World, a: Action, c: Id)
    requires RollbackInv(w) && Enabled(w, a)
    requires w.history.open == Some(c) && Apply(w, a).history.open == Some(c)
    ensures IsRolling(Apply(w, a).disk, c) <==> IsRolling(w.disk, c) && !EndsRolling(a)
  {
    hide EnteredAtMostOnce, SettledIsSettled, ContextsWereClaimed, RestoreAllows, ExecEnabled, ExecApply, FieldEnabled, FieldApply;
    match a
    case Process(p) => hide RestoredMemory;
    case Fields(f) => FieldsKeepRolling(w, f, c);
    case Rollback(r) => RollbackKeepsRolling(w, r, c);
    case Exec(e) => ExecKeepsRolling(w, e, c);
  }

  lemma FieldsKeepRolling(w: World, a: FieldAction, c: Id)
    requires FieldEnabled(w, a)
    ensures IsRolling(FieldApply(w, a).disk, c) <==> IsRolling(w.disk, c)
  {
  }

  lemma ExecKeepsRolling(w: World, a: ExecAction, c: Id)
    requires ExecEnabled(w, a)
    ensures IsRolling(ExecApply(w, a).disk, c) <==> IsRolling(w.disk, c)
  {
    hide WellFormed;
  }

  lemma RollbackKeepsRolling(w: World, a: RollbackAction, c: Id)
    requires PcFitsRow(w) && OpenIsNamed(w) && RollbackEnabled(w, a)
    requires w.history.open == Some(c) && RollbackApply(w, a).history.open == Some(c)
    ensures IsRolling(RollbackApply(w, a).disk, c) <==> IsRolling(w.disk, c) && !EndsRolling(Rollback(a))
  {
  }

  lemma FocusIsOnRolling(w: World, a: RollbackAction, c: Id)
    requires RollbackInv(w) && RollbackEnabled(w, a) && ChangesFocus(a)
    requires w.history.open == Some(c) && RollbackApply(w, a).history.open == Some(c)
    ensures IsRolling(w.disk, c)
  {
  }

  /** After the step, the row is rolling back or what is durable is young enough. */
  predicate AsksAfter(w: World, a: Action, c: Id) {
    (IsRolling(w.disk, c) && !EndsRolling(a)) || WritesFresh(w, a) || (!w.history.freshness.diskIsOld && !WritesOld(w, a))
  }

  lemma BootAsksOn(w: World, found: Option<Id>, c: Id)
    requires RollbackInv(w) && SnapshotsAgree(w) && ProcessEnabled(w, Boot(found))
    requires w.history.open == Some(c) && ProcessApply(w, Boot(found)).history.open == Some(c)
    ensures IsRolling(w.disk, c) || !w.history.freshness.diskIsOld
    ensures var w' := ProcessApply(w, Boot(found)); IsRolling(w'.disk, c) || !w'.history.freshness.diskIsOld
  {
    FoundIsOpen(w, found);
    RestartAsks(w.disk, found);
    hide RestoredMemory;
  }

  lemma StepAsksIff(w: World, a: Action, c: Id)
    requires RollbackInv(w) && SnapshotsAgree(w) && Enabled(w, a)
    requires w.history.open == Some(c) && Apply(w, a).history.open == Some(c)
    ensures var w' := Apply(w, a);
            IsRolling(w'.disk, c) || !w'.history.freshness.diskIsOld <==> AsksAfter(w, a, c)
  {
    hide RollbackInv, SnapshotsAgree, ProcessApply, ProcessEnabled, FieldApply, FieldEnabled, RollbackApply, RollbackEnabled,
      ExecApply, ExecEnabled, RestoreAllows;
    RollingAfter(w, a, c);
    if a.Process? && a.process.Boot? {
      BootAsksOn(w, a.process.found, c);
    } else if a.Rollback? && ChangesFocus(a.rollback) {
      FocusIsOnRolling(w, a.rollback, c);
    } else {
      AgeOfDisk(w, a);
    }
  }

  /**
   Exactly two things make a restart forget the open checkpoint: the end of the rolling back
   while what is durable is older than the naming, and the write of a snapshot older than
   the naming when the row is not rolling back.  Exactly the write of a younger one makes
   restarts ask about it again.
   */
  lemma ForgettingSteps(trail: seq<World>, n: nat, a: Action, c: Id)
    requires IsRun(trail) && n + 1 < |trail| && Enabled(trail[n], a) && trail[n + 1] == Apply(trail[n], a)
    requires trail[n].history.open == Some(c) && trail[n + 1].history.open == Some(c)
    ensures Asks(trail[n + 1].disk, c) <==>
              || (IsRolling(trail[n].disk, c) && !EndsRolling(a))
              || WritesFresh(trail[n], a)
              || (!trail[n].history.freshness.diskIsOld && !WritesOld(trail[n], a))
  {
    hide IsRun, Enabled, Apply, RollbackInv, SnapshotsAgree, Asks;
    RunAgrees(trail, n);
    RunAgrees(trail, n + 1);
    AsksIff(trail[n + 1], c);
    StepAsksIff(trail[n], a, c);
  }

  // ---- which crashes are followed by a question that has been answered ----

  /** The write of a snapshot that names c although the memory is not about c any more. */
  predicate RevivesName(w: World, a: Action, c: Id) {
    WritesOld(w, a) && a.fields.thread in w.drafts && ContextId(w.drafts[a.fields.thread].context) == Some(c)
  }

  /** Neither the memory nor the disk is about c, and c is done with. */
  ghost predicate IsLaidToRest(w: World, c: Id) {
    c in w.history.settled && w.history.freshness.context != Some(c) && DiskContext(w.disk) != Some(c)
  }

  lemma RestoredIsFoundOrNamed(w: World, found: Option<Id>, c: Id)
    requires RollbackInv(w) && c in w.history.settled && Finds(w.disk, found)
    ensures Names(RestoredMemory(w.disk, found).context, c) <==> DiskContext(w.disk) == Some(c) && found.None?
  {
    FoundIsOpen(w, found);
    RestartAsks(w.disk, found);
    hide RestoredMemory;
    assert IsDecided(w.disk, c);
  }

  lemma RestLasts(w: World, a: Action, c: Id)
    requires RollbackInv(w) && SnapshotsAgree(w) && Enabled(w, a) && IsLaidToRest(w, c)
    ensures IsLaidToRest(Apply(w, a), c) <==> !RevivesName(w, a, c)
  {
    hide RollbackInv, SnapshotsAgree, ProcessApply, ProcessEnabled, FieldApply, FieldEnabled, RollbackApply, RollbackEnabled,
      ExecApply, ExecEnabled, RestoreAllows, LeavesSnapshots;
    SettledGrows(w, a);
    InvFits(w);
    if !TouchesSnapshots(a) {
      MostStepsLeave(w, a);
      LeavingRests(w, Apply(w, a), c);
    } else {
      match a
      case Process(p) => ProcessRests(w, p, c);
      case Fields(f) => FieldsRest(w, f, c);
      case Rollback(r) => RollbackRests(w, r, c);
      case Exec(e) => ExecRests(w, e, c);
    }
  }

  lemma LeavingRests(w: World, w': World, c: Id)
    requires LeavesSnapshots(w, w') && IsLaidToRest(w, c) && w.history.settled <= w'.history.settled
    ensures IsLaidToRest(w', c)
  {
  }

  lemma ProcessRests(w: World, a: ProcessAction, c: Id)
    requires RollbackInv(w) && ProcessEnabled(w, a) && IsLaidToRest(w, c)
    ensures IsLaidToRest(ProcessApply(w, a), c)
  {
    hide RestoredMemory, Finds;
    if a.Boot? { RestoredIsFoundOrNamed(w, a.found, c); }
  }

  lemma FieldsRest(w: World, a: FieldAction, c: Id)
    requires DraftsAgree(w) && FieldEnabled(w, a) && IsLaidToRest(w, c)
    requires a.TakeSnapshot? || a.WriteSnapshot? || a.TakeOwn?
    ensures IsLaidToRest(FieldApply(w, a), c) <==> !RevivesName(w, Fields(a), c)
  {
  }

  lemma RollbackRests(w: World, a: RollbackAction, c: Id)
    requires RollbackInv(w) && OwnAgrees(w) && RollbackEnabled(w, a) && IsLaidToRest(w, c)
    ensures IsLaidToRest(RollbackApply(w, a), c)
  {
    hide EnteredAtMostOnce, RollingIsOpen, OpenIsNamed, ContextsWereClaimed;
    assert IsDecided(w.disk, c);
  }

  lemma ExecRests(w: World, a: ExecAction, c: Id)
    requires OwnAgrees(w) && ExecEnabled(w, a) && IsLaidToRest(w, c)
    ensures IsLaidToRest(ExecApply(w, a), c)
  {
    hide WellFormed;
  }

  lemma SealLaysToRest(w: World, a: Action, c: Id)
    requires RollbackInv(w) && SnapshotsAgree(w) && Enabled(w, a)
    requires c !in w.history.settled && c in Apply(w, a).history.settled
    ensures IsLaidToRest(Apply(w, a), c)
  {
    hide RestoreAllows, ExecApply, ExecEnabled, FieldApply, FieldEnabled, RollbackApply, RollbackEnabled,
      RollbackInv, SnapshotsAgree, IsLaidToRest;
    match a
    case Process(p) => hide RestoredMemory;
    case Fields(f) => FieldsSettleNothing(w, f);
    case Rollback(r) => RollbackLaysToRest(w, r, c);
    case Exec(e) => ExecMoves(w, e, c);
  }

  lemma RollbackLaysToRest(w: World, a: RollbackAction, c: Id)
    requires RollbackInv(w) && SnapshotsAgree(w) && RollbackEnabled(w, a)
    requires c !in w.history.settled && c in RollbackApply(w, a).history.settled
    ensures IsLaidToRest(RollbackApply(w, a), c)
  {
    hide EnteredAtMostOnce, RollingIsOpen, OpenIsNamed, ContextsWereClaimed, DraftsAgree, OldIsBlind;
  }

  lemma FieldsSettleNothing(w: World, a: FieldAction)
    requires FieldEnabled(w, a)
    ensures FieldApply(w, a).history.settled == w.history.settled
  {
  }

  ghost predicate RevivesAt(trail: seq<World>, k: nat, c: Id)
    requires k < |trail| - 1
  {
    exists a :: Enabled(trail[k], a) && trail[k + 1] == Apply(trail[k], a) && RevivesName(trail[k], a, c)
  }

  lemma {:induction false} RestLastsUntilRevived(trail: seq<World>, n: nat, later: nat, c: Id)
    requires IsRun(trail) && n < later < |trail|
    requires c !in trail[n].history.settled && c in trail[n + 1].history.settled
    requires forall k: nat :: n < k < later ==> !RevivesAt(trail, k, c)
    ensures IsLaidToRest(trail[later], c)
    decreases later
  {
    hide Enabled, Apply, RollbackInv, SnapshotsAgree, IsLaidToRest, RevivesName;
    RunAgrees(trail, later - 1);
    assert StepAt(trail, later - 1);
    var a :| Enabled(trail[later - 1], a) && trail[later] == Apply(trail[later - 1], a);
    if later == n + 1 {
      SealLaysToRest(trail[n], a, c);
    } else {
      RestLastsUntilRevived(trail, n, later - 1, c);
      assert !RevivesAt(trail, later - 1, c);
      RestLasts(trail[later - 1], a, c);
    }
  }

  lemma RevivalNames(trail: seq<World>, k: nat, c: Id)
    requires IsRun(trail) && k + 1 < |trail| && RevivesAt(trail, k, c)
    ensures DiskContext(trail[k + 1].disk) == Some(c)
  {
    hide RestoreAllows, ExecApply, ExecEnabled, RollbackApply, RollbackEnabled;
  }

  /**
   Once a rollback or a decision has reached the disk, its row never moves again, and a
   restart asks about it again exactly if the disk names it and no other row is rolling
   back.  That takes the write of a snapshot older than the end of the recovery, and each
   such write makes the disk name it.
   */
  lemma SettledIsAskedAgainIff(trail: seq<World>, n: nat, later: nat, c: Id, found: Option<Id>)
    requires IsRun(trail) && n < later < |trail| && Finds(trail[later].disk, found)
    requires c !in trail[n].history.settled && c in trail[n + 1].history.settled
    ensures c in trail[later].history.settled
    ensures c in trail[later].disk.rows && forall target :: !Allowed(trail[later].disk.rows[c].status, target)
    ensures Names(RestoredMemory(trail[later].disk, found).context, c) <==>
              DiskContext(trail[later].disk) == Some(c) && found.None?
    ensures DiskContext(trail[later].disk) == Some(c) ==> exists k: nat :: n < k < later && RevivesAt(trail, k, c)
    ensures forall k: nat :: n < k < later && RevivesAt(trail, k, c) ==> DiskContext(trail[k + 1].disk) == Some(c)
  {
    forall k: nat | n < k < later && RevivesAt(trail, k, c) ensures DiskContext(trail[k + 1].disk) == Some(c) {
      RevivalNames(trail, k, c);
    }
    hide IsRun, RestoredMemory, RevivesAt;
    SettledOnlyGrows(trail, n + 1, later, c);
    RunAgrees(trail, later);
    assert IsDecided(trail[later].disk, c);
    RestoredIsFoundOrNamed(trail[later], found, c);
    if forall k: nat :: n < k < later ==> !RevivesAt(trail, k, c) {
      RestLastsUntilRevived(trail, n, later, c);
    }
  }
}
