/**
 What every run of the host keeps about rollbacks: a restore is never replayed, a claim is
 never forgotten before a human has decided, and a decision is never asked for twice.
 */
module RollbackProtocol {
  import opened Wrappers
  import opened FileTree
  import CheckpointSnapshot
  import opened HostState
  import opened HostMachine

  predicate IsRolling(d: Disk, c: Id) {
    c in d.rows && d.rows[c].status == RollingBack
  }

  predicate Names(context: Option<Context>, c: Id) {
    context.Some? && context.value.id == c
  }

  predicate DiskNames(d: Disk, c: Id) {
    d.runtime.Some? && Names(d.runtime.value.context, c)
  }

  /** The status of a checkpoint that has been claimed at some time. */
  predicate WasClaimed(d: Disk, c: Id) {
    c in d.rows && d.rows[c].status != Ready && d.rows[c].status != Accepted
  }

  ghost predicate EnteredAtMostOnce(w: World) {
    forall c ::
      && w.history.entered[c] <= 1
      && (w.history.entered[c] == 1 ==> WasClaimed(w.disk, c))
      && (c in w.history.returned ==> w.history.entered[c] == 1)
      && (c in w.disk.rows && w.disk.rows[c].status == RolledBack ==> c in w.history.returned)
  }

  /** Where the lock holder is determines the row it works on and what is durable about it. */
  ghost predicate PcFitsRow(w: World) {
    && (!w.pc.Free? ==> w.memory.Some?)
    && match w.pc
       case Begun(c) => IsReadyHere(w.disk, c)
       case Announcing(c) => IsReadyHere(w.disk, c)
       case Won(c) => IsRolling(w.disk, c) && w.history.entered[c] == 0
       case Named(c) => IsRolling(w.disk, c) && w.history.entered[c] == 0 && Remembered(w, c)
       case Entering(c) => IsRolling(w.disk, c) && w.history.entered[c] == 0 && Remembered(w, c)
       case Restoring(c, _) =>
         && IsRolling(w.disk, c) && Remembered(w, c)
         && c !in w.history.returned && w.history.entered[c] == 1
       case Returned(c) => IsRolling(w.disk, c) && Remembered(w, c) && c in w.history.returned
       case Reviewed(c) => IsRolling(w.disk, c) && Remembered(w, c) && c in w.history.returned
       case Completed(c) => HasStatus(w.disk, c, RolledBack) && Remembered(w, c)
       case Finished(c) => HasStatus(w.disk, c, RolledBack) && w.memory.value.context.None? && w.history.open == None
       case Refused(c) => IsRolling(w.disk, c) && Remembered(w, c)
       case MarkedFailed(c) => HasStatus(w.disk, c, RollbackFailed) && Remembered(w, c)
       case Expiring(_, decided) => w.history.open == None && (decided.Some? ==> IsDecided(w.disk, decided.value))
       case Sealing(decided) =>
         w.memory.value.context.None? && w.history.open == None && (decided.Some? ==> IsDecided(w.disk, decided.value))
       case _ => true
  }

  predicate HasStatus(d: Disk, c: Id, status: Status) {
    c in d.rows && d.rows[c].status == status
  }

  /** Nothing but a human will ever be asked about it again. */
  predicate IsDecided(d: Disk, c: Id) {
    c in d.rows && d.rows[c].status != Ready && d.rows[c].status != RollingBack
  }

  predicate Remembered(w: World, c: Id) {
    w.memory.Some? && Names(w.memory.value.context, c) && w.history.open == Some(c)
  }

  /** The lock holder is between the claim and the end of the rollback of c. */
  predicate RollsBack(pc: Pc, c: Id) {
    (pc.Won? || pc.Named? || pc.Entering? || pc.Restoring? || pc.Returned? || pc.Reviewed? || pc.Refused?) && pc.c == c
  }

  /** Nobody rolls c back, and nothing but a human decision can be made. */
  predicate AwaitsDecision(w: World, c: Id) {
    && w.memory.Some? && w.memory.value.lifecycle == Lifecycle.RecoveryRequired
    && w.memory.value.pending == map[] && Names(w.memory.value.context, c)
    && (w.pc.Free? || w.pc.Deciding?)
  }

  ghost predicate RollingIsOpen(w: World) {
    forall c :: IsRolling(w.disk, c) ==>
      && w.history.open == Some(c)
      && w.disk.rows[c].workspace == w.disk.workspace
      && (w.memory.Some? ==> RollsBack(w.pc, c) || AwaitsDecision(w, c))
  }

  /** The memory is about the checkpoint claimed last, from the moment it is named. */
  ghost predicate OpenIsNamed(w: World) {
    match w.history.open
    case None => true
    case Some(c) =>
      && WasClaimed(w.disk, c)
      && (IsRolling(w.disk, c) || w.history.freshness.context == Some(c))
      && (w.memory.Some? ==> w.pc == Won(c) || Names(w.memory.value.context, c))
  }

  predicate NamesClaimed(d: Disk, context: Option<Context>) {
    context.Some? ==> WasClaimed(d, context.value.id)
  }

  ghost predicate ContextsWereClaimed(w: World) {
    && (w.memory.Some? ==> NamesClaimed(w.disk, w.memory.value.context))
    && (w.disk.runtime.Some? ==> NamesClaimed(w.disk, w.disk.runtime.value.context))
    && (w.own.Some? ==> NamesClaimed(w.disk, w.own.value.context))
    && (forall t :: t in w.drafts ==> NamesClaimed(w.disk, w.drafts[t].context))
  }

  /** The record of what the memory is about is right, and no snapshot outlives its process. */
  predicate FocusFits(w: World) {
    && (w.memory.Some? ==> w.history.freshness.context == ContextId(w.memory.value.context))
    && (w.memory.None? ==> w.drafts == map[] && w.own == None)
  }

  ghost predicate SettledIsSettled(w: World) {
    forall c :: c in w.history.settled ==> IsDecided(w.disk, c)
  }

  predicate RecoveryIsPaused(w: World) {
    w.memory.Some? && w.memory.value.lifecycle == Lifecycle.RecoveryRequired ==> w.memory.value.paused
  }

  ghost predicate RowsInv(w: World) {
    && EnteredAtMostOnce(w) && PcFitsRow(w) && RollingIsOpen(w) && OpenIsNamed(w)
    && SettledIsSettled(w) && RecoveryIsPaused(w) && FocusFits(w)
  }

  ghost predicate RollbackInv(w: World) {
    RowsInv(w) && ContextsWereClaimed(w)
  }

  // ---- every step keeps it ----

  lemma FoundIsOpen(w: World, found: Option<Id>)
    requires RollbackInv(w) && Finds(w.disk, found)
    ensures forall c: Id :: IsRolling(w.disk, c) <==> found == Some(c)
  {
    forall c: Id ensures IsRolling(w.disk, c) <==> found == Some(c) {
      if IsRolling(w.disk, c) { assert IsRollingBackIn(w.disk, c); }
      if found.Some? { assert IsRolling(w.disk, found.value); }
    }
  }

  /** A restart that has a checkpoint to ask about does nothing but ask. */
  lemma RestartAsks(d: Disk, found: Option<Id>)
    ensures var m := RestoredMemory(d, found);
            && m.context == RecoveredContext(d, found)
            && m.pending == map[] && (m.lifecycle == Lifecycle.RecoveryRequired ==> m.paused)
            && (m.context.Some? ==>
                  m == Memory(Lifecycle.RecoveryRequired, Activity.RecoveryRequired, true,
                              d.runtime.Some? && d.runtime.value.guarded, map[], m.context, false))
  {
  }

  lemma BootKeeps(w: World, found: Option<Id>)
    requires RollbackInv(w) && ProcessEnabled(w, Boot(found))
    ensures RollbackInv(ProcessApply(w, Boot(found)))
  {
    FoundIsOpen(w, found);
    RestartAsks(w.disk, found);
    hide RestoredMemory, Finds;
    assert w.pc.Free?;
    assert NamesClaimed(w.disk, RecoveredContext(w.disk, found));
  }

  lemma CrashKeeps(w: World)
    requires RollbackInv(w) && ProcessEnabled(w, Crash)
    ensures RollbackInv(ProcessApply(w, Crash))
  {
  }

  lemma TreeChangesKeep(w: World, a: ProcessAction)
    requires RollbackInv(w) && ProcessEnabled(w, a) && (a.Edit? || a.WriteControl?)
    ensures RollbackInv(ProcessApply(w, a))
  {
    hide WellFormed, OnlyControlMoves, WithControl;
  }

  lemma ProcessKeeps(w: World, a: ProcessAction)
    requires RollbackInv(w) && ProcessEnabled(w, a)
    ensures RollbackInv(ProcessApply(w, a))
  {
    hide RollbackInv, ProcessEnabled, ProcessApply;
    match a
    case Crash => CrashKeeps(w);
    case Boot(found) => BootKeeps(w, found);
    case Edit(_, _) => TreeChangesKeep(w, a);
    case WriteControl(_) => TreeChangesKeep(w, a);
  }

  /** A step that has nothing to do with rollbacks. */
  ghost predicate Quiet(w: World, w': World) {
    && w.memory.Some? && w'.memory.Some?
    && var m, m' := w.memory.value, w'.memory.value;
    && m'.context == m.context && w'.disk.workspace == w.disk.workspace
    && w'.history.open == w.history.open && w'.history.entered == w.history.entered
    && w'.history.returned == w.history.returned && w'.history.settled == w.history.settled
    && w'.history.freshness.context == w.history.freshness.context
    && (forall c :: c in w.disk.rows ==> c in w'.disk.rows && w'.disk.rows[c] == w.disk.rows[c])
    && (forall c :: c in w'.disk.rows && c !in w.disk.rows ==> w'.disk.rows[c].status == Ready)
    && (w'.pc == w.pc || ((w.pc.Free? || w.pc.Window?) && (w'.pc.Free? || w'.pc.Window?)))
    && (m'.lifecycle == Lifecycle.RecoveryRequired ==>
          m.lifecycle == Lifecycle.RecoveryRequired && (m.paused ==> m'.paused))
    && (m.lifecycle == Lifecycle.RecoveryRequired && m.pending == map[] && (w.pc.Free? || w.pc.Deciding?) ==>
          m'.lifecycle == Lifecycle.RecoveryRequired && m'.pending == map[] && w'.pc == w.pc)
  }

  lemma QuietKeeps(w: World, w': World)
    requires RowsInv(w) && Quiet(w, w')
    ensures RowsInv(w')
  {
    forall c: Id ensures IsRolling(w'.disk, c) <==> IsRolling(w.disk, c) { }
  }

  lemma FieldsAreQuiet(w: World, a: FieldAction)
    requires RecoveryIsPaused(w) && FieldEnabled(w, a) && !a.Accept? && !a.SetWorkspace?
    ensures Quiet(w, FieldApply(w, a))
  {
  }

  lemma FieldsKeepContexts(w: World, a: FieldAction)
    requires ContextsWereClaimed(w) && FieldEnabled(w, a)
    ensures ContextsWereClaimed(FieldApply(w, a))
  {
    if a.TakeSnapshot? || a.WriteSnapshot? {
      DraftsKeepContexts(w, a);
    } else {
      OtherFieldsKeepContexts(w, a);
    }
  }

  lemma DraftsKeepContexts(w: World, a: FieldAction)
    requires ContextsWereClaimed(w) && FieldEnabled(w, a) && (a.TakeSnapshot? || a.WriteSnapshot?)
    ensures ContextsWereClaimed(FieldApply(w, a))
  {
    var w' := FieldApply(w, a);
    assert w'.disk.rows == w.disk.rows;
  }

  lemma OtherFieldsKeepContexts(w: World, a: FieldAction)
    requires ContextsWereClaimed(w) && FieldEnabled(w, a) && !a.TakeSnapshot? && !a.WriteSnapshot?
    ensures ContextsWereClaimed(FieldApply(w, a))
  {
  }

  lemma FieldsKeep(w: World, a: FieldAction)
    requires RollbackInv(w) && FieldEnabled(w, a)
    ensures RollbackInv(FieldApply(w, a))
  {
    hide Quiet, FieldApply, FieldEnabled, ContextsWereClaimed, EnteredAtMostOnce, PcFitsRow, RollingIsOpen, OpenIsNamed;
    FieldsKeepContexts(w, a);
    if a.Accept? || a.SetWorkspace? {
      OpenMessagesKeep(w, a);
    } else {
      FieldsAreQuiet(w, a);
      QuietKeeps(w, FieldApply(w, a));
    }
  }

  /** While messages pass, no row is rolling back. */
  lemma OpenMessagesKeep(w: World, a: FieldAction)
    requires RowsInv(w) && FieldEnabled(w, a) && (a.Accept? || a.SetWorkspace?)
    ensures RowsInv(FieldApply(w, a))
  {
  }

  lemma ExecIsQuiet(w: World, a: ExecAction)
    requires RecoveryIsPaused(w) && ExecEnabled(w, a)
    ensures Quiet(w, ExecApply(w, a))
  {
    hide WellFormed, CheckpointSnapshot.Capturable, CheckpointSnapshot.IsSnapshotOf, RiskAt, NeedsDecision;
  }

  lemma ExecKeepsContexts(w: World, a: ExecAction)
    requires ContextsWereClaimed(w) && ExecEnabled(w, a)
    ensures ContextsWereClaimed(ExecApply(w, a))
  {
    hide ExecEnabled;
    ExecKeepsClaims(w, a);
    ExecKeepsSnapshots(w, a);
    hide ExecApply, WasClaimed;
  }

  lemma ExecKeepsClaims(w: World, a: ExecAction)
    requires ExecEnabled(w, a)
    ensures forall c: Id :: WasClaimed(w.disk, c) ==> WasClaimed(ExecApply(w, a).disk, c)
  {
    hide WellFormed;
  }

  lemma ExecKeepsSnapshots(w: World, a: ExecAction)
    requires ExecEnabled(w, a)
    ensures var w' := ExecApply(w, a);
            && w.memory.Some? && w'.memory.Some? && w'.memory.value.context == w.memory.value.context
            && w'.drafts == w.drafts && (w'.own == w.own || w'.own == None)
            && (w'.disk.runtime == w.disk.runtime || w'.disk.runtime == w.own)
  {
    hide WellFormed;
  }

  lemma ExecKeeps(w: World, a: ExecAction)
    requires RollbackInv(w) && ExecEnabled(w, a)
    ensures RollbackInv(ExecApply(w, a))
  {
    hide Quiet, ExecApply, ExecEnabled, ContextsWereClaimed, EnteredAtMostOnce, PcFitsRow, RollingIsOpen, OpenIsNamed;
    ExecKeepsContexts(w, a);
    ExecIsQuiet(w, a);
    QuietKeeps(w, ExecApply(w, a));
  }

  lemma AnnouncingKeeps(w: World, a: RollbackAction)
    requires RowsInv(w) && RollbackEnabled(w, a) && (a.Begin? || a.Announce?)
    ensures RowsInv(RollbackApply(w, a))
  {
  }

  lemma ClaimingKeeps(w: World, a: RollbackAction)
    requires RowsInv(w) && RollbackEnabled(w, a) && a.Claim?
    ensures RowsInv(RollbackApply(w, a))
  {
  }

  lemma NamingKeeps(w: World, a: RollbackAction)
    requires RowsInv(w) && RollbackEnabled(w, a) && a.NameCheckpoint?
    ensures RowsInv(RollbackApply(w, a))
  {
  }

  lemma EnteringKeeps(w: World, a: RollbackAction)
    requires RowsInv(w) && RollbackEnabled(w, a) && (a.ConfirmClaim? || a.EnterRestore?)
    ensures RowsInv(RollbackApply(w, a))
  {
  }

  lemma RestoringKeeps(w: World, a: RollbackAction)
    requires RowsInv(w) && RollbackEnabled(w, a) && (a.MoveRestore? || a.ReturnRestore? || a.RefuseRestore?)
    ensures RowsInv(RollbackApply(w, a))
  {
  }

  lemma ReviewingKeeps(w: World, a: RollbackAction)
    requires RowsInv(w) && RollbackEnabled(w, a) && a.PutReview?
    ensures RowsInv(RollbackApply(w, a))
  {
  }

  lemma CompletingKeeps(w: World, a: RollbackAction)
    requires RowsInv(w) && RollbackEnabled(w, a) && a.CompleteRow?
    ensures RowsInv(RollbackApply(w, a))
  {
  }

  lemma FinishingKeeps(w: World, a: RollbackAction)
    requires RowsInv(w) && RollbackEnabled(w, a) && (a.FinishFields? || a.SealRollback?)
    ensures RowsInv(RollbackApply(w, a))
  {
  }

  lemma FailingKeeps(w: World, a: RollbackAction)
    requires RowsInv(w) && RollbackEnabled(w, a) && a.FailRow?
    ensures RowsInv(RollbackApply(w, a))
  {
  }

  lemma FailedFieldsKeep(w: World, a: RollbackAction)
    requires RowsInv(w) && RollbackEnabled(w, a) && a.FailFields?
    ensures RowsInv(RollbackApply(w, a))
  {
  }

  lemma OpeningDecisionKeeps(w: World, a: RollbackAction)
    requires RowsInv(w) && RollbackEnabled(w, a) && a.BeginDecision?
    ensures RowsInv(RollbackApply(w, a))
  {
  }

  lemma InvalidatingKeeps(w: World, a: RollbackAction)
    requires RollbackInv(w) && RollbackEnabled(w, a) && a.InvalidateRow?
    ensures RowsInv(RollbackApply(w, a))
  {
    if w.memory.value.context.Some? { assert WasClaimed(w.disk, w.memory.value.context.value.id); }
  }

  lemma DecidingKeeps(w: World, a: RollbackAction)
    requires RowsInv(w) && RollbackEnabled(w, a) && (a.ClearFields? || a.SealDecision?)
    ensures RowsInv(RollbackApply(w, a))
  {
  }

  lemma RollbackKeepsContexts(w: World, a: RollbackAction)
    requires ContextsWereClaimed(w) && PcFitsRow(w) && RollbackEnabled(w, a)
    ensures ContextsWereClaimed(RollbackApply(w, a))
  {
    ClaimedStays(w, a);
    hide WasClaimed, RollbackEnabled;
    if a.FailFields? { assert WasClaimed(w.disk, w.pc.c) by { FailedWasClaimed(w); } }
    if a.NameCheckpoint? { assert WasClaimed(w.disk, w.pc.c) by { FailedWasClaimed(w); } }
  }

  lemma FailedWasClaimed(w: World)
    requires PcFitsRow(w) && (w.pc.MarkedFailed? || w.pc.Won?)
    ensures WasClaimed(w.disk, w.pc.c)
  {
  }

  lemma ClaimedStays(w: World, a: RollbackAction)
    requires RollbackEnabled(w, a)
    ensures forall c :: WasClaimed(w.disk, c) ==> WasClaimed(RollbackApply(w, a).disk, c)
  {
  }

  lemma RollbackKeepsRows(w: World, a: RollbackAction)
    requires RollbackInv(w) && RollbackEnabled(w, a)
    ensures RowsInv(RollbackApply(w, a))
  {
    hide RowsInv, RollbackEnabled, RollbackApply, ContextsWereClaimed;
    match a
    case Begin(_) => AnnouncingKeeps(w, a);
    case Announce => AnnouncingKeeps(w, a);
    case Claim => ClaimingKeeps(w, a);
    case NameCheckpoint => NamingKeeps(w, a);
    case ConfirmClaim => EnteringKeeps(w, a);
    case EnterRestore => EnteringKeeps(w, a);
    case MoveRestore(_) => RestoringKeeps(w, a);
    case ReturnRestore(_) => RestoringKeeps(w, a);
    case RefuseRestore(_) => RestoringKeeps(w, a);
    case PutReview => ReviewingKeeps(w, a);
    case CompleteRow => CompletingKeeps(w, a);
    case FinishFields => FinishingKeeps(w, a);
    case SealRollback => FinishingKeeps(w, a);
    case FailRow => FailingKeeps(w, a);
    case FailFields => FailedFieldsKeep(w, a);
    case BeginDecision(_) => OpeningDecisionKeeps(w, a);
    case InvalidateRow => InvalidatingKeeps(w, a);
    case ClearFields => DecidingKeeps(w, a);
    case SealDecision => DecidingKeeps(w, a);
  }

  lemma RollbackKeeps(w: World, a: RollbackAction)
    requires RollbackInv(w) && RollbackEnabled(w, a)
    ensures RollbackInv(RollbackApply(w, a))
  {
    hide RollbackEnabled, RollbackApply, ContextsWereClaimed, EnteredAtMostOnce, PcFitsRow, RollingIsOpen, OpenIsNamed;
    RollbackKeepsRows(w, a);
    RollbackKeepsContexts(w, a);
  }

  lemma StepKeeps(w: World, a: Action)
    requires RollbackInv(w) && Enabled(w, a)
    ensures RollbackInv(Apply(w, a))
  {
    hide RollbackInv, ProcessEnabled, ProcessApply, FieldEnabled, FieldApply, RollbackEnabled, RollbackApply,
      ExecEnabled, ExecApply, RestoreAllows;
    match a
    case Process(p) => ProcessKeeps(w, p);
    case Fields(f) => FieldsKeep(w, f);
    case Rollback(r) => RollbackKeeps(w, r);
    case Exec(e) => ExecKeeps(w, e);
  }

  lemma InitialIsFine(w: World)
    requires Initial(w)
    ensures RollbackInv(w)
  {
  }

  lemma {:induction false} RunKeeps(trail: seq<World>, n: nat)
    requires IsRun(trail) && n < |trail|
    ensures RollbackInv(trail[n])
  {
    hide RollbackInv, Initial, Enabled, Apply;
    if n == 0 {
      InitialIsFine(trail[0]);
    } else {
      RunKeeps(trail, n - 1);
      assert StepAt(trail, n - 1);
      var a :| Enabled(trail[n - 1], a) && trail[n] == Apply(trail[n - 1], a);
      StepKeeps(trail[n - 1], a);
    }
  }

  // ---- the main results, for every moment of every run ----

  /**
   Never replayed: a restore is entered at most once per checkpoint, never for one that is
   ready or accepted, and has returned for every one that is rolled back.  At most one
   checkpoint is ever rolling back.
   */
  lemma RestoreIsNeverReplayed(trail: seq<World>, n: nat, c: Id, other: Id)
    requires IsRun(trail) && n < |trail|
    ensures var w := trail[n];
            && w.history.entered[c] <= 1
            && (c in w.disk.rows && w.disk.rows[c].status in {Ready, Accepted} ==> w.history.entered[c] == 0)
            && (c in w.disk.rows && w.disk.rows[c].status == RolledBack ==> c in w.history.returned)
            && (c in w.history.returned ==> w.history.entered[c] == 1)
            && (IsRolling(w.disk, c) && IsRolling(w.disk, other) ==> c == other)
  {
    hide IsRun;
    RunKeeps(trail, n);
  }

  lemma SettledGrows(w: World, a: Action)
    requires Enabled(w, a)
    ensures w.history.settled <= Apply(w, a).history.settled
  {
    hide RestoreAllows, WellFormed;
    match a
    case Process(p) =>
    case Fields(f) =>
    case Rollback(r) => RollbackSettles(w, r);
    case Exec(e) => ExecMoves(w, e, 0);
  }

  lemma RollbackSettles(w: World, a: RollbackAction)
    requires RollbackEnabled(w, a)
    ensures w.history.settled <= RollbackApply(w, a).history.settled
  {
  }

  lemma {:induction false} SettledOnlyGrows(trail: seq<World>, n: nat, later: nat, c: Id)
    requires IsRun(trail) && n <= later < |trail| && c in trail[n].history.settled
    ensures c in trail[later].history.settled
    decreases later - n
  {
    hide Enabled, Apply;
    if n < later {
      assert StepAt(trail, n);
      var a :| Enabled(trail[n], a) && trail[n + 1] == Apply(trail[n], a);
      SettledGrows(trail[n], a);
      SettledOnlyGrows(trail, n + 1, later, c);
    }
  }

  /** A row keeps what was captured, and its status stays or follows the transition graph. */
  ghost predicate RowMoves(d: Disk, d': Disk, c: Id) {
    if c in d.rows then
      && c in d'.rows
      && d'.rows[c].workspace == d.rows[c].workspace
      && d'.rows[c].snapshot == d.rows[c].snapshot
      && (d'.rows[c].status == d.rows[c].status || Allowed(d.rows[c].status, d'.rows[c].status))
    else c in d'.rows ==> d'.rows[c].status == Ready
  }

  lemma ExecMoves(w: World, a: ExecAction, c: Id)
    requires ExecEnabled(w, a)
    ensures RowMoves(w.disk, ExecApply(w, a).disk, c)
    ensures w.history.settled == ExecApply(w, a).history.settled
  {
    hide WellFormed;
  }

  lemma FieldsMove(w: World, a: FieldAction, c: Id)
    requires FieldEnabled(w, a)
    ensures RowMoves(w.disk, FieldApply(w, a).disk, c)
  {
  }

  lemma OnlyRowWritesMove(w: World, a: RollbackAction, c: Id)
    requires RollbackEnabled(w, a) && !WritesRow(a)
    ensures RowMoves(w.disk, RollbackApply(w, a).disk, c)
  {
    assert RollbackApply(w, a).disk.rows == w.disk.rows;
  }

  lemma RollbackMoves(w: World, a: RollbackAction, c: Id)
    requires PcFitsRow(w) && RollbackEnabled(w, a)
    ensures RowMoves(w.disk, RollbackApply(w, a).disk, c)
  {
    if WritesRow(a) {
      RowWritesMove(w, a, c);
    } else {
      hide PcFitsRow, RollbackEnabled, RollbackApply, RowMoves;
      OnlyRowWritesMove(w, a, c);
    }
  }

  lemma RowWritesMove(w: World, a: RollbackAction, c: Id)
    requires PcFitsRow(w) && RollbackEnabled(w, a) && WritesRow(a)
    ensures RowMoves(w.disk, RollbackApply(w, a).disk, c)
  {
  }

  /** Every step moves rows along the transition graph, the raw put_checkpoint included. */
  lemma RowsFollowTheGraph(trail: seq<World>, n: nat, c: Id)
    requires IsRun(trail) && n + 1 < |trail|
    ensures RowMoves(trail[n].disk, trail[n + 1].disk, c)
  {
    hide RestoreAllows, WellFormed, FieldApply, RollbackApply, ExecApply, RowMoves, RollbackInv, RollbackEnabled,
      ExecEnabled, FieldEnabled;
    RunKeeps(trail, n);
    var w := trail[n];
    assert PcFitsRow(w) by { InvFitsPc(w); }
    assert StepAt(trail, n);
    var a :| Enabled(w, a) && trail[n + 1] == Apply(w, a);
    match a
    case Process(p) => SameDiskMoves(w.disk, c);
    case Fields(f) => FieldsMove(w, f, c);
    case Rollback(r) => RollbackMoves(w, r, c);
    case Exec(e) => ExecMoves(w, e, c);
  }

  /** A ready row may come to anything, one that rolls back only to an end, and an end stays. */
  predicate IsLater(earlier: Status, later: Status) {
    later == earlier || earlier.Ready?
    || (earlier.RollingBack? && (later.RolledBack? || later.RollbackFailed? || later.Invalid?))
  }

  /**
   Rows begin ready and only go forward, over any stretch of any run: an accepted, rolled
   back, failed or invalid row stays so for good, and is rolled back only from rolling back.
   */
  lemma {:induction false} RowsOnlyGoForward(trail: seq<World>, n: nat, later: nat, c: Id)
    requires IsRun(trail) && n <= later < |trail| && c in trail[n].disk.rows
    ensures c in trail[later].disk.rows
    ensures trail[later].disk.rows[c].workspace == trail[n].disk.rows[c].workspace
    ensures trail[later].disk.rows[c].snapshot == trail[n].disk.rows[c].snapshot
    ensures IsLater(trail[n].disk.rows[c].status, trail[later].disk.rows[c].status)
    ensures later == n + 1 && trail[later].disk.rows[c].status.RolledBack? ==>
              trail[n].disk.rows[c].status.RolledBack? || trail[n].disk.rows[c].status.RollingBack?
  {
    hide IsRun;
    if n < later {
      RowsOnlyGoForward(trail, n, later - 1, c);
      RowsFollowTheGraph(trail, later - 1, c);
    }
  }

  lemma InvFitsPc(w: World)
    requires RollbackInv(w)
    ensures PcFitsRow(w)
  {
  }

  lemma SameDiskMoves(d: Disk, c: Id)
    ensures RowMoves(d, d, c)
  {
  }

  /**
   No compare-and-set ever loses: the branches that deal with a lost claim or a completion
   that cannot be recorded are never taken.
   */
  lemma CompareAndSetNeverLoses(trail: seq<World>, n: nat)
    requires IsRun(trail) && n < |trail|
    ensures var w := trail[n];
            && (w.pc.Announcing? ==> RollbackEnabled(w, Claim))
            && (w.pc.Reviewed? ==> RollbackEnabled(w, CompleteRow))
            && (w.pc.Refused? ==> RollbackEnabled(w, FailRow))
  {
    hide IsRun;
    RunKeeps(trail, n);
  }

  /** What may still happen while recovery is required: nothing but waiting, crashing and deciding. */
  predicate WaitsOrDecides(a: Action) {
    || (a.Process? && !a.process.Boot?)
    || (a.Fields? && (a.fields.TakeSnapshot? || a.fields.WriteSnapshot? || a.fields.ProjectStateFault?
                     || a.fields.ResponseError?))
    || (a.Rollback? && a.rollback.BeginDecision?)
  }

  /**
   The recovery gate is airtight exactly when no approval is pending.  After a restart none
   is; after a rollback that failed in-process one may be, and resolving it over Telegram,
   which does not pass the gate, runs its command or unlocks the run.
   */
  lemma GateIsAirtightIffNothingPends(w: World)
    requires RecoveryIsPaused(w) && w.pc.Free? && w.memory.Some?
    requires w.memory.value.lifecycle == Lifecycle.RecoveryRequired && w.disk.workspace in w.trees
    ensures (forall a :: Enabled(w, a) ==> WaitsOrDecides(a)) <==> w.memory.value.pending == map[]
  {
    hide RestoreAllows, WellFormed;
    var m := w.memory.value;
    if m.pending == map[] {
      forall a | Enabled(w, a) ensures WaitsOrDecides(a) { OnlyWaitsOrDecides(w, a); }
    } else {
      var id :| id in m.pending;
      if m.pending[id].CommandAt? {
        assert Enabled(w, Exec(Approve(id)));
      } else {
        assert Enabled(w, Fields(ResolveOther(id, true, Sent(false, Activity.Idle))));
      }
    }
  }

  lemma OnlyWaitsOrDecides(w: World, a: Action)
    requires RecoveryIsPaused(w) && w.pc.Free? && w.memory.Some? && Enabled(w, a)
    requires w.memory.value.lifecycle == Lifecycle.RecoveryRequired && w.memory.value.pending == map[]
    ensures WaitsOrDecides(a)
  {
    hide RestoreAllows, WellFormed;
  }
}
