/**
 The orchestrator itself: its fields, the store it writes, and the operations that touch
 checkpoints.  A host remembers every state it has passed through; the operations are
 proved to move only along steps of the machine, so whatever holds in every run of the
 machine holds at each moment inside each of them.
 */
module Host {
  import opened Wrappers
  import opened FileTree
  import opened CheckpointSnapshot
  import opened SnapshotExtraction
  import opened RestorePlan
  import opened CheckpointRestore
  import opened HostState
  import opened HostMachine
  import Policy
  import GuardedExecution
  import RollbackProtocol
  import SnapshotFreshness
  import UndoProtocol
  import UndoTheorems

  /** The thread that handles messages. */
  const MAIN: ThreadId := 0

  class Orchestrator {
    var lifecycle: Lifecycle
    var status: Activity
    var paused: bool
    var guarded: bool
    var pending: map<ApprovalId, Continuation>
    var context: Option<Context>
    var executing: bool
    var disk: Disk
    var trees: map<string, Tree>
    ghost var drafts: map<ThreadId, Runtime>
    ghost var own: Option<Runtime>
    ghost var pc: Pc
    ghost var history: History
    ghost var trail: seq<World>

    ghost function Fields(): Memory
      reads this
    {
      Memory(lifecycle, status, paused, guarded, pending, context, executing)
    }

    ghost function Now(): World
      reads this
    {
      World(disk, Some(Fields()), drafts, own, trees, pc, history)
    }

    /** Everything so far is a run of the machine, and it has led here. */
    ghost predicate Valid()
      reads this
    {
      IsRun(trail) && trail[|trail| - 1] == Now()
    }

    // ---- the record ----

    ghost method RecordRollback(a: RollbackAction)
      requires IsRun(trail)
      requires var w := trail[|trail| - 1];
               RollbackEnabled(w, a) && RestoreAllows(w, a) && IsOutcome(RollbackApply(w, a))
      modifies this`drafts, this`own, this`pc, this`history, this`trail
      ensures Valid() && trail == old(trail) + [Now()]
      ensures Now() == RollbackApply(old(trail[|trail| - 1]), a)
    {
      hide RollbackEnabled, RollbackApply, RestoreAllows, Initial;
      ghost var w := trail[|trail| - 1];
      assert Enabled(w, Rollback(a)) && Apply(w, Rollback(a)) == RollbackApply(w, a);
      Append(RollbackApply(w, a));
    }

    ghost method RecordFields(a: FieldAction)
      requires IsRun(trail)
      requires var w := trail[|trail| - 1]; FieldEnabled(w, a) && IsOutcome(FieldApply(w, a))
      modifies this`drafts, this`own, this`pc, this`history, this`trail
      ensures Valid() && trail == old(trail) + [Now()]
      ensures Now() == FieldApply(old(trail[|trail| - 1]), a)
    {
      hide FieldEnabled, FieldApply, Initial;
      ghost var w := trail[|trail| - 1];
      assert Enabled(w, Action.Fields(a)) && Apply(w, Action.Fields(a)) == FieldApply(w, a);
      Append(FieldApply(w, a));
    }

    ghost method RecordExec(a: ExecAction)
      requires IsRun(trail)
      requires var w := trail[|trail| - 1]; ExecEnabled(w, a) && IsOutcome(ExecApply(w, a))
      modifies this`drafts, this`own, this`pc, this`history, this`trail
      ensures Valid() && trail == old(trail) + [Now()]
      ensures Now() == ExecApply(old(trail[|trail| - 1]), a)
    {
      hide ExecEnabled, ExecApply, Initial;
      ghost var w := trail[|trail| - 1];
      assert Enabled(w, Exec(a)) && Apply(w, Exec(a)) == ExecApply(w, a);
      Append(ExecApply(w, a));
    }

    /** The fields already hold what w says. */
    ghost predicate IsOutcome(w: World)
      reads this
    {
      w.disk == disk && w.memory == Some(Fields()) && w.trees == trees
    }

    ghost method Append(w: World)
      requires IsRun(trail) && Next(trail[|trail| - 1], w) && IsOutcome(w)
      modifies this`drafts, this`own, this`pc, this`history, this`trail
      ensures Valid() && trail == old(trail) + [Now()] && Now() == w
    {
      hide Next, IsRun;
      drafts, own, pc, history := w.drafts, w.own, w.pc, w.history;
      LongerRun(trail, w);
      trail := trail + [w];
    }

    // ---- the store ----

    /** _runtime_snapshot, on whatever thread. */
    method TakeRuntimeSnapshot(thread: ThreadId) returns (snapshot: Runtime)
      requires Valid()
      modifies this`drafts, this`own, this`pc, this`history, this`trail
      ensures Valid() && old(trail) <= trail && pc == old(pc) && own == old(own)
      ensures snapshot == RuntimeSnapshot(Fields()) && drafts == old(drafts)[thread := snapshot]
      ensures history == old(history).(freshness := history.freshness)
      ensures thread !in history.freshness.oldDrafts
    {
      hide IsRun;
      snapshot := Runtime(lifecycle, status, paused, guarded, context);
      RecordFields(TakeSnapshot(thread));
    }

    /** put_runtime_state: writes what it is given, whatever has happened since it was taken. */
    method PutRuntimeState(thread: ThreadId, snapshot: Runtime)
      requires Valid() && thread in drafts && drafts[thread] == snapshot
      modifies this
      ensures Valid() && old(trail) <= trail && pc == old(pc) && own == old(own)
      ensures Fields() == old(Fields()) && trees == old(trees) && disk == old(disk).(runtime := Some(snapshot))
      ensures drafts == old(drafts) - {thread}
      ensures history == old(history).(freshness := history.freshness)
      ensures history.freshness.diskIsOld <==> thread in old(history).freshness.oldDrafts
    {
      hide IsRun;
      disk := disk.(runtime := Some(snapshot));
      RecordFields(WriteSnapshot(thread));
    }

    /** The lock holder takes its snapshot; it writes it before it does anything else. */
    method TakeOwnSnapshot() returns (snapshot: Runtime)
      requires Valid() && own.None? && IsAboutToPersist(pc)
      modifies this`drafts, this`own, this`pc, this`history, this`trail
      ensures Valid() && old(trail) <= trail && Now() == old(Now()).(own := Some(snapshot))
      ensures snapshot == RuntimeSnapshot(Fields())
    {
      hide IsRun;
      snapshot := Runtime(lifecycle, status, paused, guarded, context);
      RecordFields(TakeOwn);
    }

    /** Compare-and-set on one row; a transition the graph does not have is an error. */
    method TransitionCheckpointStatus(c: Id, expected: Status, target: Status) returns (won: bool)
      requires Allowed(expected, target)
      modifies this`disk
      ensures won <==> c in old(disk).rows && old(disk).rows[c].status == expected
      ensures disk == if won then WithStatus(old(disk), c, target) else old(disk)
    {
      won := c in disk.rows && disk.rows[c].status == expected;
      if won {
        disk := disk.(rows := disk.rows[c := disk.rows[c].(status := target)]);
      }
    }

    method PutCheckpoint(c: Id, row: Row)
      modifies this`disk
      ensures disk == old(disk).(rows := old(disk).rows[c := row])
    {
      disk := disk.(rows := disk.rows[c := row]);
    }

    /** emit_event, when nothing comes in between: the runtime state is persisted first. */
    method EmitEvent(thread: ThreadId)
      requires Valid()
      modifies this
      ensures Valid() && old(trail) <= trail && pc == old(pc) && own == old(own)
      ensures Fields() == old(Fields()) && trees == old(trees)
      ensures disk == old(disk).(runtime := Some(RuntimeSnapshot(Fields())))
      ensures history == old(history).(freshness := history.freshness) && !history.freshness.diskIsOld
    {
      hide IsRun;
      var snapshot := TakeRuntimeSnapshot(thread);
      PutRuntimeState(thread, snapshot);
    }

    // ---- accept_checkpoint ----

    /** Called by handle, which turns it away while recovery is required. */
    method AcceptCheckpoint(c: Id) returns (ok: bool)
      requires Valid() && pc.Free? && lifecycle != Lifecycle.RecoveryRequired
      modifies this
      ensures Valid() && old(trail) <= trail
      ensures ok <==> !old(executing) && IsReadyHere(old(disk), c)
      ensures disk.rows == if ok then WithStatus(old(disk), c, Accepted).rows else old(disk).rows
      ensures Fields() == old(Fields()) && trees == old(trees)
    {
      if executing || !(c in disk.rows && disk.rows[c].workspace == disk.workspace && disk.rows[c].status == Ready) {
        EmitEvent(MAIN);
        return false;
      }
      ok := TransitionCheckpointStatus(c, Ready, Accepted);
      RecordFields(Accept(c));
      EmitEvent(MAIN);
    }

    // ---- rollback_checkpoint ----

    /** First crash boundary: the durable state says recovering. */
    method AnnounceRollback(c: Id)
      requires Valid() && pc.Free? && lifecycle != Lifecycle.RecoveryRequired && paused && !executing
      requires IsReadyHere(disk, c)
      modifies this
      ensures Valid() && old(trail) <= trail && pc == Announcing(c)
      ensures Fields() == old(Fields()).(lifecycle := Lifecycle.Recovering, status := Activity.Recovering)
      ensures disk == old(disk).(runtime := Some(RuntimeSnapshot(Fields())))
      ensures trees == old(trees) && history == old(history).(freshness := history.freshness)
    {
      hide IsRun;
      StartRecovering(c);
      var snapshot := TakeOwnSnapshot();
      disk := disk.(runtime := Some(snapshot));
      RecordRollback(Announce);
    }

    method StartRecovering(c: Id)
      requires Valid() && pc.Free? && lifecycle != Lifecycle.RecoveryRequired && paused && !executing
      requires IsReadyHere(disk, c)
      modifies this
      ensures Valid() && old(trail) <= trail && pc == Begun(c) && own.None?
      ensures Fields() == old(Fields()).(lifecycle := Lifecycle.Recovering, status := Activity.Recovering)
      ensures disk == old(disk) && trees == old(trees) && history == old(history)
    {
      hide IsRun;
      NothingHeld(trail);
      paused, lifecycle, status := true, Lifecycle.Recovering, Activity.Recovering;
      RecordRollback(Begin(c));
    }

    /** Second crash boundary: the row is claimed and the durable state names it. */
    method ClaimRow(c: Id)
      requires Valid() && pc == Announcing(c) && IsReadyHere(disk, c)
      modifies this
      ensures Valid() && old(trail) <= trail && pc == Entering(c)
      ensures Fields() == old(Fields()).(context := Some(Context(c, RollingBack)))
      ensures disk == WithStatus(old(disk), c, RollingBack).(runtime := Some(RuntimeSnapshot(Fields())))
      ensures trees == old(trees)
    {
      hide IsRun, WithStatus;
      NothingHeld(trail);
      WinRow(c);
      NameRow(c);
      var snapshot := TakeOwnSnapshot();
      disk := disk.(runtime := Some(snapshot));
      RecordRollback(ConfirmClaim);
    }

    method NameRow(c: Id)
      requires Valid() && pc == Won(c)
      modifies this
      ensures Valid() && old(trail) <= trail && pc == Named(c) && own == old(own)
      ensures Fields() == old(Fields()).(context := Some(Context(c, RollingBack)))
      ensures disk == old(disk) && trees == old(trees)
    {
      hide IsRun;
      context := Some(Context(c, RollingBack));
      RecordRollback(NameCheckpoint);
    }

    method WinRow(c: Id)
      requires Valid() && pc == Announcing(c) && IsReadyHere(disk, c)
      modifies this
      ensures Valid() && old(trail) <= trail && pc == Won(c) && own == old(own)
      ensures Fields() == old(Fields()) && trees == old(trees) && disk == WithStatus(old(disk), c, RollingBack)
    {
      hide IsRun;
      var claimed := TransitionCheckpointStatus(c, Ready, RollingBack);
      if !claimed { assert false; }
      RecordRollback(Claim);
    }

    /** Every tree the restore passes through is a moment at which the process may crash. */
    ghost method RecordMoves(c: Id, now: Tree, moves: seq<Tree>)
      requires IsRun(trail) && trail[|trail| - 1] == Now()
      requires pc == Restoring(c, now) && c in disk.rows && disk.workspace in trees
      requires forall u :: u in moves ==> Intermediate(now, u)
      modifies this`trail
      ensures IsRun(trail) && old(trail) <= trail
      ensures trail[|trail| - 1] ==
                if moves == [] then Now() else Now().(trees := trees[disk.workspace := moves[|moves| - 1]])
    {
      hide Intermediate, Restorable, Target, StepAt, Initial;
      for i := 0 to |moves|
        invariant IsRun(trail) && trail != [] && old(trail) <= trail
        invariant trail[|trail| - 1] ==
                    if i == 0 then Now() else Now().(trees := trees[disk.workspace := moves[i - 1]])
      {
        ghost var w := trail[|trail| - 1];
        var u := moves[i];
        assert u in moves;
        assert RollbackEnabled(w, MoveRestore(u)) && RestoreAllows(w, MoveRestore(u));
        ghost var w' := Now().(trees := trees[disk.workspace := u]);
        assert RollbackApply(w, MoveRestore(u)) == w' by {
          assert w.trees[disk.workspace := u] == w'.trees;
        }
        assert Enabled(w, Rollback(MoveRestore(u))) && Apply(w, Rollback(MoveRestore(u))) == w';
        LongerRun(trail, w');
        trail := trail + [w'];
      }
    }

    /** The restore itself. */
    method Restore(c: Id, archive: seq<Member>, tmp: string) returns (ok: bool)
      requires Valid() && pc == Entering(c) && c in disk.rows && disk.workspace in trees
      requires RestoreIsSafe(disk.rows[c].snapshot, archive, disk.workspace, trees[disk.workspace], tmp)
      modifies this
      ensures Valid() && old(trail) <= trail
      ensures Fields() == old(Fields()) && disk == old(disk)
      ensures ok <==> Restorable(old(disk).rows[c].snapshot, archive, old(disk).workspace, old(trees)[old(disk).workspace])
      ensures pc == if ok then Returned(c) else Refused(c)
      ensures trees == if ok then AfterRestore(old(trees), old(disk).workspace, old(disk).rows[c].snapshot) else old(trees)
    {
      hide IsRun, RestoreIsSafe, Restorable, Target, Intermediate;
      RecordRollback(EnterRestore);
      var result: Tree;
      ghost var moves: seq<Tree>;
      ok, result, moves := RestoreTree(disk.workspace, trees[disk.workspace], disk.rows[c].snapshot, archive, tmp);
      if ok {
        RestoreSucceeded(c, archive, result, moves);
      } else {
        RestoreWasRefused(c, archive);
      }
    }

    method RestoreSucceeded(c: Id, archive: seq<Member>, result: Tree, ghost moves: seq<Tree>)
      requires Valid() && c in disk.rows && disk.workspace in trees && pc == Restoring(c, trees[disk.workspace])
      requires Restorable(disk.rows[c].snapshot, archive, disk.workspace, trees[disk.workspace])
      requires result == Target(trees[disk.workspace], DesiredOf(disk.rows[c].snapshot.digest))
      requires moves != [] && moves[|moves| - 1] == result
      requires forall u :: u in moves ==> Intermediate(trees[disk.workspace], u)
      modifies this
      ensures Valid() && old(trail) <= trail && pc == Returned(c)
      ensures Fields() == old(Fields()) && disk == old(disk) && trees == old(trees)[disk.workspace := result]
    {
      hide IsRun, Restorable, Target, Intermediate;
      RecordMoves(c, trees[disk.workspace], moves);
      trees := trees[disk.workspace := result];
      RecordRollback(ReturnRestore(archive));
    }

    method RestoreWasRefused(c: Id, archive: seq<Member>)
      requires Valid() && c in disk.rows && disk.workspace in trees && pc == Restoring(c, trees[disk.workspace])
      requires !Restorable(disk.rows[c].snapshot, archive, disk.workspace, trees[disk.workspace])
      modifies this
      ensures Valid() && old(trail) <= trail && pc == Refused(c)
      ensures Fields() == old(Fields()) && disk == old(disk) && trees == old(trees)
    {
      hide IsRun, Restorable;
      RecordRollback(RefuseRestore(archive));
    }

    // ---- after the restore ----

    /** The Git evidence goes into the row by a raw put, then the row is completed. */
    method CompleteRow(c: Id)
      requires Valid() && pc == Returned(c) && RollbackProtocol.IsRolling(disk, c)
      modifies this
      ensures Valid() && old(trail) <= trail && pc == Completed(c)
      ensures Fields() == old(Fields()) && trees == old(trees) && disk == WithStatus(old(disk), c, RolledBack)
    {
      hide IsRun;
      PutCheckpoint(c, disk.rows[c].(status := RollingBack));
      RecordRollback(RollbackAction.PutReview);
      var completed := TransitionCheckpointStatus(c, RollingBack, RolledBack);
      if !completed { assert false; }
      RecordRollback(RollbackAction.CompleteRow);
    }

    method FinishRollback(c: Id)
      requires Valid() && pc == Completed(c)
      modifies this
      ensures Valid() && old(trail) <= trail && pc == Free
      ensures Fields() ==
                old(Fields()).(context := None, paused := true, lifecycle := Lifecycle.Paused, status := Activity.Paused)
      ensures trees == old(trees) && disk == old(disk).(runtime := Some(RuntimeSnapshot(Fields())))
      ensures c in history.settled
    {
      hide IsRun;
      NothingHeld(trail);
      ReportSuccess(c);
      var snapshot := TakeOwnSnapshot();
      disk := disk.(runtime := Some(snapshot));
      RecordRollback(SealRollback);
    }

    method ReportSuccess(c: Id)
      requires Valid() && pc == Completed(c)
      modifies this
      ensures Valid() && old(trail) <= trail && pc == Finished(c) && own == old(own)
      ensures Fields() ==
                old(Fields()).(context := None, paused := true, lifecycle := Lifecycle.Paused, status := Activity.Paused)
      ensures trees == old(trees) && disk == old(disk)
    {
      hide IsRun;
      context, paused, lifecycle, status := None, true, Lifecycle.Paused, Activity.Paused;
      RecordRollback(FinishFields);
    }

    /** Fail closed: no retry, and only a human decision leads on. */
    method FailRollback(c: Id)
      requires Valid() && pc == Refused(c) && RollbackProtocol.IsRolling(disk, c)
      modifies this
      ensures Valid() && old(trail) <= trail && pc == Free
      ensures Fields() == Failing(old(Fields()), c)
      ensures trees == old(trees)
      ensures disk == WithStatus(old(disk), c, RollbackFailed).(runtime := Some(RuntimeSnapshot(Fields())))
    {
      hide IsRun, Failing, WithStatus, RollbackProtocol.IsRolling;
      MarkFailed(c);
      ReportFailure(c);
      EmitEvent(MAIN);
    }

    method MarkFailed(c: Id)
      requires Valid() && pc == Refused(c) && RollbackProtocol.IsRolling(disk, c)
      modifies this
      ensures Valid() && old(trail) <= trail && pc == MarkedFailed(c)
      ensures Fields() == old(Fields()) && trees == old(trees) && disk == WithStatus(old(disk), c, RollbackFailed)
    {
      hide IsRun;
      var marked := TransitionCheckpointStatus(c, RollingBack, RollbackFailed);
      if !marked { assert false; }
      RecordRollback(FailRow);
    }

    method ReportFailure(c: Id)
      requires Valid() && pc == MarkedFailed(c)
      modifies this
      ensures Valid() && old(trail) <= trail && pc == Free
      ensures Fields() == Failing(old(Fields()), c) && trees == old(trees) && disk == old(disk)
    {
      hide IsRun;
      paused, context := true, Some(Context(c, RollbackFailed));
      lifecycle, status := Lifecycle.RecoveryRequired, Activity.RecoveryRequired;
      RecordRollback(FailFields);
    }

    /** From the claimed row to the end: the restore decides. */
    method RestoreClaimed(c: Id, archive: seq<Member>, tmp: string) returns (ok: bool)
      requires Valid() && pc == Entering(c) && RollbackProtocol.IsRolling(disk, c) && disk.workspace in trees
      requires RestoreIsSafe(disk.rows[c].snapshot, archive, disk.workspace, trees[disk.workspace], tmp)
      modifies this
      ensures Valid() && old(trail) <= trail && pc.Free? && pending == old(pending)
      ensures ok <==> Restorable(old(disk).rows[c].snapshot, archive, old(disk).workspace, old(trees)[old(disk).workspace])
      ensures ok ==>
                && disk.rows == WithStatus(old(disk), c, RolledBack).rows
                && trees == AfterRestore(old(trees), old(disk).workspace, old(disk).rows[c].snapshot)
                && lifecycle == Lifecycle.Paused && context == None && c in history.settled
      ensures !ok ==>
                && disk.rows == WithStatus(old(disk), c, RollbackFailed).rows && trees == old(trees)
                && lifecycle == Lifecycle.RecoveryRequired && context == Some(Context(c, RollbackFailed))
    {
      hide IsRun, Restorable, RestoreIsSafe, AfterRestore;
      ok := Restore(c, archive, tmp);
      if ok {
        CompleteRow(c);
        FinishRollback(c);
      } else {
        FailRollback(c);
      }
    }

    /** What rollback_checkpoint checks before it does anything. */
    ghost predicate MayRollBack(c: Id)
      reads this
    {
      paused && !executing && IsReadyHere(disk, c)
    }

    /**
     rollback_checkpoint.  Turned away without touching rows or trees unless the host is
     paused, idle and the row is ready here; otherwise the restore decides, and in both
     cases the row, the fields and the tree agree on the outcome.  Approvals stay pending
     throughout, also when the outcome is recovery_required.
     */
    method RollbackCheckpoint(c: Id, archive: seq<Member>, tmp: string) returns (ok: bool)
      requires Valid() && pc.Free? && lifecycle != Lifecycle.RecoveryRequired && disk.workspace in trees
      requires IsTemporaryName(tmp) && Unused(trees[disk.workspace], tmp)
      requires c in disk.rows ==> UnusedBy(DesiredOf(disk.rows[c].snapshot.digest), tmp)
      modifies this
      ensures Valid() && old(trail) <= trail && pc.Free? && pending == old(pending)
      ensures ok <==> old(MayRollBack(c))
                      && Restorable(old(disk).rows[c].snapshot, archive, old(disk).workspace,
                                    old(trees)[old(disk).workspace])
      ensures ok ==>
                && disk.rows == WithStatus(old(disk), c, RolledBack).rows
                && trees == AfterRestore(old(trees), old(disk).workspace, old(disk).rows[c].snapshot)
                && lifecycle == Lifecycle.Paused && context == None && c in history.settled
      ensures ok ==> UndoesCapture(old(history), c, old(trees), trees, old(disk).workspace)
      ensures !ok ==> trees == old(trees)
      ensures !ok && old(MayRollBack(c)) ==>
                && disk.rows == WithStatus(old(disk), c, RollbackFailed).rows
                && lifecycle == Lifecycle.RecoveryRequired && context == Some(Context(c, RollbackFailed))
      ensures !old(MayRollBack(c)) ==> disk.rows == old(disk).rows && Fields() == old(Fields())
    {
      hide IsRun, Restorable, Unused, UnusedBy, RestoreIsSafe, AfterRestore, UndoesCapture, IsTemporaryName;
      if executing || !paused
         || !(c in disk.rows && disk.rows[c].workspace == disk.workspace && disk.rows[c].status == Ready) {
        EmitEvent(MAIN);
        return false;
      }
      CapturesAreSafe(trail, c, archive, tmp);
      RestoringUndoes(trail, c, archive);
      AnnounceRollback(c);
      ClaimRow(c);
      ok := RestoreClaimed(c, archive, tmp);
    }

    // ---- resolve_recovery ----

    /** The named row, if its rollback was cut off, becomes invalid: it will never be rolled back. */
    method SettleRow(prepare: bool)
      requires Valid() && pc.Free? && lifecycle == Lifecycle.RecoveryRequired
      modifies this
      ensures Valid() && old(trail) <= trail
      ensures pc == Expiring(prepare, if context.Some? then Some(context.value.id) else None)
      ensures Fields() == old(Fields()) && trees == old(trees)
      ensures disk == if MustInvalidate(old(Now())) then WithStatus(old(disk), context.value.id, Invalid) else old(disk)
    {
      hide IsRun;
      RecordRollback(BeginDecision(prepare));
      if context.Some? && context.value.id in disk.rows && disk.rows[context.value.id].status == RollingBack {
        var settled := TransitionCheckpointStatus(context.value.id, RollingBack, Invalid);
        if !settled { assert false; }
      }
      RecordRollback(InvalidateRow);
    }

    method ForgetInterruptedRun(prepare: bool, ghost decided: Option<Id>)
      requires Valid() && pc == Expiring(prepare, decided)
      modifies this
      ensures Valid() && old(trail) <= trail && pc == Sealing(decided) && own.None?
      ensures Fields() == Cleared(old(Fields()), prepare) && trees == old(trees)
      ensures disk == old(disk).(approvals := ExpireAll(old(disk).approvals))
    {
      hide IsRun, Cleared, ExpireAll;
      NothingHeld(trail);
      ClearRunFields(prepare);
      RecordRollback(ClearFields);
    }

    /** expire_pending_approvals, and the fields of the interrupted run. */
    method ClearRunFields(prepare: bool)
      modifies this`disk, this`pending, this`context, this`paused, this`lifecycle, this`status
      ensures Fields() == Cleared(old(Fields()), prepare)
      ensures disk == old(disk).(approvals := ExpireAll(old(disk).approvals))
    {
      disk := disk.(approvals := ExpireAll(disk.approvals));
      pending, context := map[], None;
      if prepare && !guarded {
        paused, lifecycle, status := false, Lifecycle.Idle, Activity.Idle;
      } else {
        paused, lifecycle := true, Lifecycle.Paused;
        status := if guarded then Activity.ProviderGuard else Activity.Paused;
      }
    }

    method SealDecision(ghost decided: Option<Id>)
      requires Valid() && pc == Sealing(decided) && own.None?
      modifies this
      ensures Valid() && old(trail) <= trail && pc.Free?
      ensures Fields() == old(Fields()) && trees == old(trees)
      ensures disk == old(disk).(runtime := Some(RuntimeSnapshot(Fields())))
      ensures decided.Some? ==> decided.value in history.settled
    {
      hide IsRun;
      var snapshot := TakeOwnSnapshot();
      disk := disk.(runtime := Some(snapshot));
      RecordRollback(RollbackAction.SealDecision);
    }

    /**
     resolve_recovery: the human has looked.  The checkpoint that was being asked about is
     settled for good, no approval survives, and the tree is left alone.
     */
    method ResolveRecovery(prepare: bool) returns (ok: bool)
      requires Valid() && pc.Free?
      modifies this
      ensures Valid() && old(trail) <= trail && pc.Free? && trees == old(trees)
      ensures ok <==> old(lifecycle) == Lifecycle.RecoveryRequired
      ensures !ok ==> Now() == old(Now())
      ensures ok ==>
                && Fields() == Cleared(old(Fields()), prepare)
                && guarded == old(guarded) && (paused <==> !prepare || guarded)
                && (paused ==> lifecycle == Lifecycle.Paused)
                && (paused ==> status == if guarded then Activity.ProviderGuard else Activity.Paused)
                && (!paused ==> lifecycle == Lifecycle.Idle && status == Activity.Idle)
                && pending == map[] && context == None && lifecycle != Lifecycle.RecoveryRequired
                && (old(context).Some? ==> old(context).value.id in history.settled)
                && disk.rows == (if MustInvalidate(old(Now())) then WithStatus(old(disk), old(context).value.id, Invalid)
                                 else old(disk)).rows
                && forall id :: id in disk.approvals ==> disk.approvals[id] != Pending
    {
      hide IsRun;
      if lifecycle != Lifecycle.RecoveryRequired { return false; }
      ghost var decided := if context.Some? then Some(context.value.id) else None;
      SettleRow(prepare);
      ForgetInterruptedRun(prepare, decided);
      SealDecision(decided);
      ok := true;
    }

    // ---- _restore_runtime_state ----

    /** A new process over what the last one left on the disk. */
    constructor (disk: Disk, trees: map<string, Tree>, ghost history: History, ghost trail: seq<World>)
      requires IsRun(trail) && trail[|trail| - 1] == World(disk, None, map[], None, trees, Free, history)
      ensures Valid() && trail <= this.trail
      ensures this.disk == disk && this.trees == trees && pc.Free?
      ensures exists found :: Finds(disk, found) && Fields() == RestoredMemory(disk, found)
      ensures pending == map[] && !executing && (lifecycle.RecoveryRequired? || !IsUnderWay(RuntimeSnapshot(Fields())))
      ensures disk.runtime.Some? && (IsUnderWay(disk.runtime.value) || disk.runtime.value.context.Some?) ==>
                lifecycle.RecoveryRequired? && status.RecoveryRequired? && paused
    {
      var found := None;
      var todo := disk.rows.Keys;
      while todo != {} && found.None?
        invariant todo <= disk.rows.Keys
        invariant found.Some? ==> IsRollingBackIn(disk, found.value)
        invariant found.None? ==> forall c :: c in disk.rows && c !in todo ==> !IsRollingBackIn(disk, c)
        decreases todo
      {
        var c :| c in todo;
        todo := todo - {c};
        if IsRollingBackIn(disk, c) { found := Some(c); }
      }
      var m := FRESH_MEMORY;
      if disk.runtime.Some? || found.Some? {
        m := FromSnapshot(disk, found);
      }
      this.lifecycle, this.status, this.paused, this.guarded := m.lifecycle, m.status, m.paused, m.guarded;
      this.pending, this.context, this.executing := m.pending, m.context, m.executing;
      ghost var booted := Booted(trail[|trail| - 1], m);
      this.disk, this.trees, this.drafts, this.own, this.pc := disk, trees, map[], None, Free;
      this.history, this.trail := booted.history, trail + [booted];
      new;
      BootIsStep(trail, found, m);
      RestartNeverResumes(disk, found);
    }

    // ---- _run_command_and_continue ----

    /** The command window is open on root, and the loop stands before command i. */
    ghost predicate AtLoop(run: RunId, i: nat, commands: seq<Command>, approved: Option<nat>, root: string)
      reads this
    {
      && Valid() && executing
      && ExecPhase(Now(), Choosing) && pc.run == run && pc.index == i && pc.workspace == root
      && history.runs[run].commands == commands && |history.runs[run].started| == i <= |commands|
      && (approved.Some? <==> pc.approval.Some?) && (approved.Some? ==> approved.value == i)
    }

    /** The window is closed, and what was durable or pending is as before. */
    method LeaveWindow(ghost a: ExecAction, sent: Sent)
      requires Valid() && ExecEnabled(Now(), a)
      requires a == Leave(sent) || (a.Block? && a.sent == sent) || (a.SaveFails? && a.sent == sent)
      modifies this
      ensures Valid() && old(trail) <= trail && pc.Free? && !executing
      ensures pending == old(pending) && disk == old(disk) && trees == old(trees) && history == old(history)
      ensures status == sent.status && (paused <==> old(paused) || sent.exhausted)
      ensures lifecycle == if sent.exhausted then Lifecycle.BudgetExhausted else old(lifecycle)
    {
      hide IsRun, ExecEnabled;
      if sent.exhausted {
        paused, lifecycle := true, Lifecycle.BudgetExhausted;
      }
      status, executing := sent.status, false;
      RecordExec(a);
    }

    /** _request_decision: the continuation stays in memory, the question goes to the disk. */
    method RequestDecision(
      run: RunId, i: nat, commands: seq<Command>, root: string, local: Policy.Decision, autoRun: bool)
      requires AtLoop(run, i, commands, None, root) && i < |commands|
      requires RiskAt(Now(), local).level != Policy.Blocked && NeedsDecision(RiskAt(Now(), local), autoRun, None)
      modifies this
      ensures Valid() && old(trail) <= trail && pc.Free? && !executing
      ensures history.runs == old(history).runs && trees == old(trees) && disk.rows == old(disk).rows
      ensures exists id: ApprovalId :: id !in old(pending) && pending == old(pending)[id := CommandAt(run, i)]
    {
      hide IsRun, RiskAt, NeedsDecision;
      var id := FreshId(disk.approvals.Keys + pending.Keys);
      pending := pending[id := CommandAt(run, i)];
      disk := disk.(approvals := disk.approvals[id := Pending]);
      status, executing := Activity.WaitingApproval, false;
      RecordExec(Ask(local, autoRun, id));
    }

    /** _create_command_checkpoint: archive first, then the row, and only then may the command run. */
    method CreateCommandCheckpoint(root: string, local: Policy.Decision, autoRun: bool, links: set<Path>)
      returns (saved: Option<Id>)
      requires Valid() && Proceeds(Now(), local, autoRun) && pc.workspace == root
      requires Policy.RequiresCheckpoint(RiskAt(Now(), local).risk)
      modifies this
      ensures Valid() && old(trail) <= trail && Fields() == old(Fields()) && trees == old(trees)
      ensures history.runs == old(history).runs
      ensures root in trees && (saved.Some? <==> Capturable(trees[root], DEFAULT_LIMITS))
      ensures saved.Some? ==>
                && saved.value !in old(disk).rows && saved.value in disk.rows
                && disk.rows[saved.value].status == Ready && disk.rows[saved.value].workspace == root
                && pc == old(pc).(phase := Armed(RiskAt(old(Now()), local), saved))
      ensures saved.None? ==> Now() == old(Now())
    {
      hide IsRun, WellFormed, Capturable, IsSnapshotOf, RiskAt, NeedsDecision;
      TreesAreWellFormed(trail, root);
      var captured := CreateWorkspaceSnapshot(root, trees[root], links, DEFAULT_LIMITS);
      if captured.Failure? { return None; }
      var c := FreshId(disk.rows.Keys);
      PutCheckpoint(c, Row(Ready, root, captured.value));
      RecordExec(Save(local, autoRun, c, captured.value, links));
      saved := Some(c);
    }

    /** The explicit crash boundary before the command. */
    method AnnounceCommand()
      requires Valid() && pc.Window? && pc.phase.Armed?
      modifies this
      ensures Valid() && old(trail) <= trail && trees == old(trees)
      ensures history == old(history).(freshness := history.freshness)
      ensures pc == old(pc).(phase := Phase.Announced(old(pc).phase.risk, old(pc).phase.checkpoint))
      ensures Fields() == old(Fields()).(status := Activity.Running)
      ensures disk == old(disk).(runtime := Some(RuntimeSnapshot(Fields())))
    {
      hide IsRun;
      NothingHeld(trail);
      status := Activity.Running;
      RecordExec(SetRunning);
      var snapshot := TakeOwnSnapshot();
      disk := disk.(runtime := Some(snapshot));
      RecordExec(ExecAction.AnnounceCommand);
    }

    /** The process gets its chance: it may do anything to the tree. */
    method RunCommand(run: RunId, root: string, effect: Effect)
      requires Valid() && pc.Window? && pc.phase.Announced? && pc.run == run && pc.workspace == root
      requires run in history.runs && root in trees && WellFormed(effect.tree)
      modifies this
      ensures Valid() && old(trail) <= trail && pc == old(pc).(phase := Executing)
      ensures Fields() == old(Fields()) && disk == old(disk) && trees == old(trees)[root := effect.tree]
      ensures run in history.runs && history.runs[run].commands == old(history).runs[run].commands
      ensures |history.runs[run].started| == |old(history).runs[run].started| + 1
    {
      hide IsRun, WellFormed;
      RecordExec(ExecAction.Run);
      trees := trees[root := effect.tree];
      RecordExec(Mutate(effect.tree));
    }

    method EndCommand(ok: bool)
      requires Valid() && ExecPhase(Now(), Executing)
      modifies this
      ensures Valid() && old(trail) <= trail && Fields() == old(Fields()) && disk == old(disk) && trees == old(trees)
      ensures pc == if ok then Window(old(pc).run, old(pc).index + 1, None, old(pc).workspace, Choosing)
                    else old(pc).(phase := Phase.Reporting)
      ensures pc.run in history.runs
      ensures history.runs[pc.run].commands == old(history).runs[old(pc).run].commands
      ensures history.runs[pc.run].started == old(history).runs[old(pc).run].started
    {
      hide IsRun;
      RecordExec(End(ok));
    }

    /** Arms the command, behind a checkpoint if it needs one; false if that could not be made. */
    method Protect(root: string, effect: Effect, risk: Policy.EffectiveRisk, autoRun: bool) returns (armed: bool)
      requires Valid() && Proceeds(Now(), effect.local, autoRun) && pc.workspace == root
      requires risk == RiskAt(Now(), effect.local)
      modifies this
      ensures Valid() && old(trail) <= trail && pending == old(pending) && trees == old(trees)
      ensures history.runs == old(history).runs
      ensures armed ==>
                && executing == old(executing) && pc.Window? && pc.phase.Armed? && pc.phase.risk == risk
                && pc == old(pc).(phase := pc.phase)
      ensures !armed ==> pc.Free? && !executing
      ensures armed <==> CanProtect(risk, old(trees), root)
    {
      hide IsRun, Capturable, NeedsDecision, RiskAt, Policy.RequiresCheckpoint, Policy.Rank;
      armed := true;
      NeedsProtectionByRank(Now(), effect.local);
      if Policy.RequiresCheckpoint(risk.risk) {
        var saved := CreateCommandCheckpoint(root, effect.local, autoRun, effect.links);
        if saved.None? {
          LeaveWindow(SaveFails(effect.local, autoRun, effect.sent), effect.sent);
          armed := false;
        }
      } else {
        RecordExec(Arm(effect.local, autoRun));
      }
    }

    /** Announces and runs the armed command i. */
    method RunArmed(run: RunId, i: nat, root: string, effect: Effect)
      requires Valid() && pc.Window? && pc.phase.Armed? && pc.run == run && pc.index == i && pc.workspace == root
      requires executing && run in history.runs && root in trees && WellFormed(effect.tree)
      modifies this
      ensures Valid() && old(trail) <= trail && pending == old(pending) && executing
      ensures run in history.runs && history.runs[run].commands == old(history).runs[run].commands
      ensures |history.runs[run].started| == |old(history).runs[run].started| + 1
      ensures trees == old(trees)[root := effect.tree]
      ensures effect.succeeds ==> AtLoop(run, i + 1, history.runs[run].commands, None, root)
      ensures !effect.succeeds ==> ExecPhase(Now(), Phase.Reporting) && pc.run == run
    {
      hide IsRun, WellFormed;
      AnnounceCommand();
      RunCommand(run, root, effect);
      EndCommand(effect.succeeds);
      if effect.succeeds { LoopFits(trail); }
    }

    /** One turn of the loop; the loop goes on only if it stands before the next command. */
    method DealWith(
      run: RunId, i: nat, commands: seq<Command>, approved: Option<nat>, root: string, effect: Effect, autoRun: bool)
      returns (goesOn: bool)
      requires AtLoop(run, i, commands, approved, root) && i < |commands| && WellFormed(effect.tree)
      modifies this
      ensures Valid() && old(trail) <= trail && old(pending).Items <= pending.Items
      ensures run in history.runs && history.runs[run].commands == commands
      ensures goesOn ==> AtLoop(run, i + 1, commands, None, root)
      ensures !goesOn ==> pc.Free? && !executing
      ensures var risk := Policy.MergeRisk(effect.local, commands[i].llm);
              var asks := risk.level != Policy.Blocked && NeedsAsking(risk, autoRun, approved);
              var runs := risk.level != Policy.Blocked && !asks && CanProtect(risk, old(trees), root);
              && (goesOn <==> runs && effect.succeeds)
              && (NeedsCapture(risk) && !Capturable(old(trees)[root], DEFAULT_LIMITS) ==> !runs)
              && |history.runs[run].started| == |old(history).runs[run].started| + (if runs then 1 else 0)
              && trees == (if runs then old(trees)[root := effect.tree] else old(trees))
              && (asks ==> exists id: ApprovalId :: id !in old(pending) && pending == old(pending)[id := CommandAt(run, i)])
              && (!asks ==> pending == old(pending))
    {
      hide IsRun, WellFormed, CanProtect, NeedsCapture, Capturable, Policy.MergeRisk, RuntimeSnapshot;
      UncapturableIsNotProtected(trees, root);
      var risk := Policy.MergeRisk(effect.local, commands[i].llm);
      if risk.level == Policy.Blocked {
        LeaveWindow(Block(effect.local, effect.sent), effect.sent);
        return false;
      }
      if (risk.level == Policy.Approval || !autoRun) && approved.None? {
        RequestDecision(run, i, commands, root, effect.local, autoRun);
        return false;
      }
      var armed := Protect(root, effect, risk, autoRun);
      if !armed { return false; }
      RunArmed(run, i, root, effect);
      goesOn := effect.succeeds;
      if !goesOn {
        LeaveWindow(Leave(effect.sent), effect.sent);
      }
    }

    /**
     _run_command_and_continue_impl: the loop over the commands of a contract.  It runs
     exactly the commands the policy lets run unasked, or the approved one and those.
     */
    method RunCommandAndContinue(
      run: RunId, commands: seq<Command>, index: nat, approvedIndex: Option<nat>, root: string,
      effects: seq<Effect>, autoRun: bool, reported: Sent)
      requires AtLoop(run, index, commands, approvedIndex, root)
      requires |effects| == |commands| && forall e :: e in effects ==> WellFormed(e.tree)
      modifies this
      ensures Valid() && old(trail) <= trail && pc.Free? && !executing && old(pending).Items <= pending.Items
      ensures run in history.runs && history.runs[run].commands == commands && index <= |commands|
      ensures |history.runs[run].started| == index + Runs(commands, effects, index, approvedIndex, old(trees), root, autoRun)
    {
      hide IsRun, WellFormed, StepsOf, Policy.RunUnasked, CanProtect, Runs;
      var i, approved := index, approvedIndex;
      while i < |commands|
        invariant i <= |commands| && AtLoop(run, i, commands, approved, root) && old(trail) <= trail
        invariant old(pending).Items <= pending.Items
        invariant approved.Some? ==> i == index && approved == approvedIndex && trees == old(trees)
        invariant i + Runs(commands, effects, i, approved, trees, root, autoRun) ==
                  index + Runs(commands, effects, index, approvedIndex, old(trees), root, autoRun)
      {
        var e := effects[i];
        assert e in effects;
        RunsFrom(commands, effects, i, approved, trees, root, autoRun);
        var goesOn := DealWith(run, i, commands, approved, root, e, autoRun);
        if !goesOn { return; }
        OtherTreesDoNotMatter(commands, effects, i + 1, trees, root, autoRun);
        i, approved := i + 1, None;
      }
      NothingRunsAtTheEnd(commands, effects, approved, trees, root, autoRun);
      LeaveWindow(Leave(reported), reported);
    }

    // ---- the ways into a command window ----

    /** A contract from the model, for a host that is not paused: opens the window and runs the loop. */
    method ExecuteContract(
      run: RunId, commands: seq<Command>, effects: seq<Effect>, autoRun: bool, reported: Sent)
      requires Valid() && pc.Free? && run !in history.runs && disk.workspace in trees
      requires |effects| == |commands| && forall e :: e in effects ==> WellFormed(e.tree)
      modifies this
      ensures Valid() && old(trail) <= trail && pc.Free?
      ensures old(paused) ==> Fields() == old(Fields()) && trees == old(trees) && history.runs == old(history).runs
      ensures !old(paused) ==>
                && run in history.runs && !executing
                && |history.runs[run].started| == Policy.RunUnasked(StepsOf(commands, effects), autoRun)
    {
      hide IsRun, WellFormed, Policy.RunUnasked;
      if paused {
        EmitEvent(MAIN);
        return;
      }
      executing, status := true, Activity.Validating;
      if lifecycle != Lifecycle.Finishing { lifecycle := Lifecycle.Running; }
      RecordExec(StartContract(run, commands));
      LoopFits(trail);
      assert StepsOf(commands, effects)[0..] == StepsOf(commands, effects);
      RunCommandAndContinue(run, commands, 0, None, disk.workspace, effects, autoRun, reported);
    }

    /** An approved command: its window opens where the contract stopped to ask. */
    method ContinueApproved(
      id: ApprovalId, commands: seq<Command>, effects: seq<Effect>, autoRun: bool, reported: Sent)
      requires Valid() && pc.Free? && id in pending && pending[id].CommandAt? && disk.workspace in trees
      requires pending[id].run in history.runs && history.runs[pending[id].run].commands == commands
      requires |effects| == |commands| && forall e :: e in effects ==> WellFormed(e.tree)
      modifies this
      ensures Valid() && old(trail) <= trail && pc.Free? && !executing
      ensures var next := old(pending[id]);
              && next.run in history.runs && next.index < |commands|
              && |history.runs[next.run].started| ==
                   next.index + Runs(commands, effects, next.index, Some(next.index), old(trees), old(disk).workspace, autoRun)
      ensures |old(trail)| < |trail| && trail[|old(trail)|].disk.approvals == old(disk).approvals[id := Approved]
      ensures trail[|old(trail)|].memory.Some? && id !in trail[|old(trail)|].memory.value.pending
    {
      hide IsRun, WellFormed, Runs;
      ApprovedFits(trail, id);
      var next := pending[id];
      pending, executing := pending - {id}, true;
      disk := disk.(approvals := disk.approvals[id := Approved]);
      RecordExec(Approve(id));
      ghost var atOpening := trail;
      LoopFits(trail);
      RunCommandAndContinue(next.run, commands, next.index, Some(next.index), disk.workspace, effects, autoRun, reported);
      assert trail[|old(trail)|] == atOpening[|old(trail)|];
    }

    /** resolve_approval for a decision that runs nothing: a refusal, a roadmap or contract matter. */
    method ResolveWithoutRunning(id: ApprovalId, approve: bool, sent: Sent)
      requires Valid() && pc.Free? && (id in pending && pending[id].CommandAt? ==> !approve)
      modifies this
      ensures Valid() && old(trail) <= trail && pc.Free? && trees == old(trees) && history == old(history)
      ensures id !in old(pending) ==> Now() == old(Now())
      ensures id in old(pending) ==>
                && pending == old(pending) - {id}
                && disk == old(disk).(approvals := old(disk).approvals[id := if approve then Approved else Rejected])
    {
      hide IsRun;
      if id !in pending { return; }
      var what := pending[id];
      pending := pending - {id};
      disk := disk.(approvals := disk.approvals[id := if approve then Approved else Rejected]);
      if what.CourseChange? {
        lifecycle := Lifecycle.Running;
        if approve { paused := false; }
      }
      status := sent.status;
      if sent.exhausted { paused, lifecycle := true, Lifecycle.BudgetExhausted; }
      if what.CommandAt? {
        RecordFields(RejectCommand(id, sent));
      } else {
        RecordFields(ResolveOther(id, approve, sent));
      }
    }

    // ---- public_checkpoint_state ----

    predicate CanAccept(c: Id)
      reads this
    {
      c in disk.rows && disk.rows[c].status == Ready && !executing && lifecycle != Lifecycle.RecoveryRequired
    }

    predicate CanRollback(c: Id)
      reads this
    {
      c in disk.rows && disk.rows[c].status == Ready && paused && !executing && lifecycle != Lifecycle.RecoveryRequired
    }

    /** The flags shown for a checkpoint of this workspace say exactly what the host would do. */
    lemma CapabilitiesAreHonest(c: Id)
      requires pc.Free? && c in disk.rows && disk.rows[c].workspace == disk.workspace
      ensures CanAccept(c) <==> FieldEnabled(Now(), Accept(c))
      ensures CanRollback(c) <==> RollbackEnabled(Now(), Begin(c))
    {
    }
  }

  /** The loop stops to ask: the command is gated, or nothing runs unasked, and it is not the approved one. */
  predicate NeedsAsking(risk: Policy.EffectiveRisk, autoRun: bool, approved: Option<nat>) {
    (risk.level == Policy.Approval || !autoRun) && approved.None?
  }

  lemma NeedsProtectionByRank(w: World, local: Policy.Decision)
    requires AtCommand(w) && RiskAt(w, local).level != Policy.Blocked
    ensures Policy.RequiresCheckpoint(RiskAt(w, local).risk) <==>
              Policy.Rank(RiskAt(w, local).risk) >= Policy.Rank(Policy.R2)
  {
    Policy.CheckpointedCommandsAreGated(local, w.history.runs[w.pc.run].commands[w.pc.index].llm);
  }

  /** A checkpoint can be made, if one is needed. */
  ghost predicate CanProtect(risk: Policy.EffectiveRisk, trees: map<string, Tree>, root: string) {
    NeedsCapture(risk) ==> root in trees && Capturable(trees[root], DEFAULT_LIMITS)
  }

  predicate NeedsCapture(risk: Policy.EffectiveRisk) {
    Policy.Rank(risk.risk) >= Policy.Rank(Policy.R2)
  }

  lemma UncapturableIsNotProtected(trees: map<string, Tree>, root: string)
    ensures root in trees && !Capturable(trees[root], DEFAULT_LIMITS) ==>
              forall risk :: NeedsCapture(risk) ==> !CanProtect(risk, trees, root)
  {
  }

  lemma LowNeedsNoCheckpoint(local: Policy.Decision, llm: Option<Policy.Risk>, trees: map<string, Tree>, root: string)
    ensures Policy.MergeRisk(local, llm).level == Policy.Low ==> CanProtect(Policy.MergeRisk(local, llm), trees, root)
  {
    Policy.CheckpointedCommandsAreGated(local, llm);
  }

  function StepsOf(commands: seq<Command>, effects: seq<Effect>): (steps: seq<Policy.Step>)
    requires |effects| == |commands|
    ensures |steps| == |commands|
  {
    seq(|commands|, i requires 0 <= i < |commands| => Policy.Step(effects[i].local, commands[i].llm, effects[i].succeeds))
  }

  /** How many commands run from command i on. */
  ghost function Runs(
    commands: seq<Command>, effects: seq<Effect>, i: nat, approved: Option<nat>, trees: map<string, Tree>,
    root: string, autoRun: bool): nat
    requires |effects| == |commands| && i <= |commands|
  {
    var steps := StepsOf(commands, effects)[i..];
    if approved.None? then Policy.RunUnasked(steps, autoRun)
    else
      var canProtect :=
        i < |commands| && CanProtect(Policy.MergeRisk(effects[i].local, commands[i].llm), trees, root);
      Policy.RunApproved(steps, canProtect, autoRun)
  }

  lemma RunsFrom(
    commands: seq<Command>, effects: seq<Effect>, i: nat, approved: Option<nat>, trees: map<string, Tree>,
    root: string, autoRun: bool)
    requires |effects| == |commands| && i < |commands|
    ensures var risk := Policy.MergeRisk(effects[i].local, commands[i].llm);
            var runs := risk.level != Policy.Blocked && !NeedsAsking(risk, autoRun, approved) && CanProtect(risk, trees, root);
            Runs(commands, effects, i, approved, trees, root, autoRun) ==
            if !runs then 0
            else if !effects[i].succeeds then 1
            else 1 + Runs(commands, effects, i + 1, None, trees, root, autoRun)
  {
    hide CanProtect, Policy.MergeRisk;
    var steps := StepsOf(commands, effects);
    LowNeedsNoCheckpoint(effects[i].local, commands[i].llm, trees, root);
    assert steps[i..][0] == steps[i] && steps[i..][1..] == steps[i + 1..];
  }

  lemma OtherTreesDoNotMatter(
    commands: seq<Command>, effects: seq<Effect>, i: nat, trees: map<string, Tree>, root: string, autoRun: bool)
    requires |effects| == |commands| && i <= |commands|
    ensures forall other :: Runs(commands, effects, i, None, trees, root, autoRun) ==
                            Runs(commands, effects, i, None, other, root, autoRun)
  {
  }

  lemma NothingRunsAtTheEnd(
    commands: seq<Command>, effects: seq<Effect>, approved: Option<nat>, trees: map<string, Tree>, root: string,
    autoRun: bool)
    requires |effects| == |commands|
    ensures Runs(commands, effects, |commands|, approved, trees, root, autoRun) == 0
  {
  }

  /** Before command i of a contract, exactly i of its commands have been started. */
  lemma LoopFits(trail: seq<World>)
    requires IsRun(trail) && ExecPhase(trail[|trail| - 1], Choosing)
    ensures var w := trail[|trail| - 1];
            |w.history.runs[w.pc.run].started| == w.pc.index <= |w.history.runs[w.pc.run].commands|
  {
    hide Initial, StepAt, GuardedExecution.RunFits, GuardedExecution.OneContinuationPerRun;
    GuardedExecution.RunKeeps(trail, |trail| - 1);
  }

  /** A pending command has not been started, and stands for one of its contract. */
  lemma ApprovedFits(trail: seq<World>, id: ApprovalId)
    requires IsRun(trail)
    requires var w := trail[|trail| - 1];
             w.memory.Some? && id in w.memory.value.pending && w.memory.value.pending[id].CommandAt?
    ensures var w := trail[|trail| - 1];
            var next := w.memory.value.pending[id];
            next.run in w.history.runs && next.index < |w.history.runs[next.run].commands|
  {
    hide Initial, StepAt, GuardedExecution.RunFits;
    GuardedExecution.RunKeeps(trail, |trail| - 1);
    assert GuardedExecution.PendingFits(trail[|trail| - 1], id);
  }

  /** What the outside contributes to one command: its classification, and what running it does. */
  datatype Effect = Effect(local: Policy.Decision, links: set<Path>, tree: Tree, succeeds: bool, sent: Sent)

  lemma TreesAreWellFormed(trail: seq<World>, root: string)
    requires IsRun(trail) && root in trail[|trail| - 1].trees
    ensures WellFormed(trail[|trail| - 1].trees[root])
  {
    hide Initial, StepAt, WellFormed, UndoProtocol.RowIsCapture;
    UndoProtocol.RunKeeps(trail, |trail| - 1);
  }

  /** An identifier nothing has: uuid4, modelled by the least number above all used ones. */
  method FreshId(used: set<nat>) returns (id: nat)
    ensures id !in used
  {
    id := 0;
    var rest := used;
    while rest != {}
      invariant rest <= used
      invariant forall n :: n in used && n !in rest ==> n < id
      decreases rest
    {
      var n :| n in rest;
      if n >= id { id := n + 1; }
      rest := rest - {n};
    }
  }

  /** _restore_runtime_state, for a host that has something to restore. */
  method FromSnapshot(d: Disk, found: Option<Id>) returns (m: Memory)
    requires d.runtime.Some? || found.Some?
    ensures m == RestoredMemory(d, found)
  {
    m := FRESH_MEMORY;
    var snapshot := Runtime(Lifecycle.Recovering, Activity.Recovering, true, false,
                            if found.Some? then Some(Context(found.value, RollingBack)) else None);
    if d.runtime.Some? { snapshot := d.runtime.value; }
    if snapshot.context.Some? { m := m.(context := Some(Reconcile(d, snapshot.context.value))); }
    if found.Some? { m := m.(context := Some(Reconcile(d, Context(found.value, RollingBack)))); }
    m := m.(guarded := snapshot.guarded);
    if RequiresRecovery(snapshot) || m.context.Some? {
      m := m.(paused := true, lifecycle := Lifecycle.RecoveryRequired, status := Activity.RecoveryRequired);
      return;
    }
    m := m.(paused := snapshot.paused, lifecycle := snapshot.lifecycle, status := snapshot.status);
    if m.guarded {
      m := m.(paused := true, lifecycle := Lifecycle.Paused, status := Activity.ProviderGuard);
    }
  }

  /** The lock holder holds a snapshot only on its way to a persist. */
  lemma NothingHeld(trail: seq<World>)
    requires IsRun(trail)
    ensures var w := trail[|trail| - 1]; w.own.Some? ==> IsAboutToPersist(w.pc)
  {
    hide Initial, StepAt, RollbackProtocol.RollbackInv;
    SnapshotFreshness.RunAgrees(trail, |trail| - 1);
  }

  lemma BootIsStep(trail: seq<World>, found: Option<Id>, m: Memory)
    requires IsRun(trail) && trail[|trail| - 1].memory.None? && Finds(trail[|trail| - 1].disk, found)
    requires m == RestoredMemory(trail[|trail| - 1].disk, found)
    ensures IsRun(trail + [Booted(trail[|trail| - 1], m)])
  {
    hide StepAt, Initial, RestoredMemory;
    var w := trail[|trail| - 1];
    assert Enabled(w, Process(Boot(found))) && Apply(w, Process(Boot(found))) == Booted(w, m);
    LongerRun(trail, Booted(w, m));
  }

  /** Every row is a capture, so its archive lists parents whenever it can be restored at all. */
  lemma CapturesAreSafe(trail: seq<World>, c: Id, archive: seq<Member>, tmp: string)
    requires IsRun(trail)
    requires var w := trail[|trail| - 1];
             && c in w.disk.rows && w.disk.rows[c].workspace == w.disk.workspace && w.disk.workspace in w.trees
             && IsTemporaryName(tmp) && Unused(w.trees[w.disk.workspace], tmp)
             && UnusedBy(DesiredOf(w.disk.rows[c].snapshot.digest), tmp)
    ensures var w := trail[|trail| - 1];
            RestoreIsSafe(w.disk.rows[c].snapshot, archive, w.disk.workspace, w.trees[w.disk.workspace], tmp)
  {
    hide Initial, StepAt, WellFormed, Capturable, IsSnapshotOf, Unused, UnusedBy, Closed, Restorable,
      UndoTheorems.Undone;
    var w := trail[|trail| - 1];
    UndoProtocol.RunKeeps(trail, |trail| - 1);
    assert UndoProtocol.RowIsCapture(w, c);
    var s, t, now := w.disk.rows[c].snapshot, w.history.taken[c], w.trees[w.disk.workspace];
    if Restorable(s, archive, w.disk.workspace, now) {
      UndoProtocol.RestorableHasDigest(s, archive, w.disk.workspace, now);
      UndoTheorems.RestoreUndoes(s, w.disk.workspace, t.tree, t.links, DEFAULT_LIMITS, now);
    }
  }

  /** The visible files under root are again those that checkpoint c captured. */
  ghost predicate UndoesCapture(h: History, c: Id, before: map<string, Tree>, after: map<string, Tree>, root: string) {
    && c in h.taken && root in before && root in after
    && UndoTheorems.Undone(h.taken[c].tree, before[root], after[root])
  }

  lemma RestoringUndoes(trail: seq<World>, c: Id, archive: seq<Member>)
    requires IsRun(trail)
    requires var w := trail[|trail| - 1];
             c in w.disk.rows && w.disk.rows[c].workspace == w.disk.workspace && w.disk.workspace in w.trees
    ensures var w := trail[|trail| - 1];
            var s := w.disk.rows[c].snapshot;
            Restorable(s, archive, w.disk.workspace, w.trees[w.disk.workspace]) ==>
              UndoesCapture(w.history, c, w.trees, AfterRestore(w.trees, w.disk.workspace, s), w.disk.workspace)
  {
    hide Initial, StepAt, WellFormed, Capturable, IsSnapshotOf, Closed, Restorable, UndoTheorems.Undone, Target;
    var w := trail[|trail| - 1];
    UndoProtocol.RunKeeps(trail, |trail| - 1);
    assert UndoProtocol.RowIsCapture(w, c);
    var s, t, now := w.disk.rows[c].snapshot, w.history.taken[c], w.trees[w.disk.workspace];
    if Restorable(s, archive, w.disk.workspace, now) {
      UndoProtocol.RestorableHasDigest(s, archive, w.disk.workspace, now);
      UndoTheorems.RestoreUndoes(s, w.disk.workspace, t.tree, t.links, DEFAULT_LIMITS, now);
    }
  }

  /** What a restore relies on: a fresh temporary name, and an archive that lists parents. */
  ghost predicate RestoreIsSafe(s: Snapshot, archive: seq<Member>, root: string, t: Tree, tmp: string) {
    && WellFormed(t) && IsTemporaryName(tmp) && Unused(t, tmp) && UnusedBy(DesiredOf(s.digest), tmp)
    && (Restorable(s, archive, root, t) ==> Closed(DesiredOf(s.digest)))
  }

  method RestoreTree(root: string, t: Tree, s: Snapshot, archive: seq<Member>, tmp: string)
    returns (ok: bool, result: Tree, ghost moves: seq<Tree>)
    requires RestoreIsSafe(s, archive, root, t, tmp)
    ensures ok <==> Restorable(s, archive, root, t)
    ensures result == if ok then Target(t, DesiredOf(s.digest)) else t
    ensures ok ==> moves != [] && moves[|moves| - 1] == result && forall u :: u in moves ==> Intermediate(t, u)
  {
    hide WellFormed, Restorable, Target, Closed, Unused, UnusedBy, Intermediate;
    var workspace := new Workspace(root, t);
    var report := workspace.RestoreWorkspaceSnapshot(s, archive, tmp);
    ok, result := report.Success?, workspace.tree;
    moves := workspace.trail + [workspace.tree];
  }

  ghost function AfterRestore(trees: map<string, Tree>, root: string, s: Snapshot): map<string, Tree> {
    if root in trees then trees[root := Target(trees[root], DesiredOf(s.digest))] else trees
  }

  lemma LongerRun(trail: seq<World>, w: World)
    requires IsRun(trail) && Next(trail[|trail| - 1], w)
    ensures IsRun(trail + [w])
  {
    hide Next, Initial;
    ghost var longer := trail + [w];
    forall i | 0 <= i < |longer| - 1 ensures StepAt(longer, i) {
      assert i < |trail| - 1 ==> StepAt(trail, i);
    }
  }
}
