/**
 Runs of the host, from an empty disk, on which a guarantee that one might expect does not
 hold: each is one member of the families that RollbackProtocol and SnapshotFreshness
 describe exactly.
 */
module HostCounterexamples {
  import opened Wrappers
  import opened FileTree
  import opened CheckpointSnapshot
  import opened CheckpointRestore
  import opened HostState
  import opened HostMachine
  import opened RollbackProtocol
  import opened SnapshotFreshness
  import opened EntryCap
  import Policy

  ghost predicate Reachable(w: World) {
    exists trail :: trail != [] && IsRun(trail) && trail[|trail| - 1] == w
  }

  lemma ReachNext(w: World, a: Action)
    requires Reachable(w) && Enabled(w, a)
    ensures Reachable(Apply(w, a))
  {
    hide IsRun, Enabled, Apply;
    var trail :| trail != [] && IsRun(trail) && trail[|trail| - 1] == w;
    LongerRun(trail, a);
  }

  lemma InitialIsReachable(w: World)
    requires Initial(w)
    ensures Reachable(w)
  {
    hide Initial, StepAt;
    var trail := [w];
    assert IsRun(trail) && trail[|trail| - 1] == w;
  }

  lemma LongerRun(trail: seq<World>, a: Action)
    requires IsRun(trail) && Enabled(trail[|trail| - 1], a)
    ensures IsRun(trail + [Apply(trail[|trail| - 1], a)])
  {
    hide Enabled, Apply, Initial;
    var w' := Apply(trail[|trail| - 1], a);
    var longer := trail + [w'];
    forall i | 0 <= i < |longer| - 1 ensures StepAt(longer, i) {
      if i < |trail| - 1 {
        assert StepAt(trail, i);
        assert longer[i] == trail[i] && longer[i + 1] == trail[i + 1];
      } else {
        assert longer[i] == trail[|trail| - 1] && longer[i + 1] == w';
      }
    }
  }

  // The workspace holds one directory.  Thread 7 is a worker that reports progress.

  const ROOT := "w"

  const COMMAND := Command("mkdir y", Some(Policy.R2))

  const LOCAL := Policy.Decision(Policy.Low, Policy.R0)

  function SavedRow(status: Status): Row {
    Row(status, ROOT, SingleSnapshot(ROOT))
  }

  /** The parts of a world that matter here. */
  ghost predicate LooksLike(w: World, runtime: Option<Runtime>, status: Status, m: Memory, pc: Pc) {
    && w.disk.runtime == runtime && w.disk.rows == map[0 := SavedRow(status)] && w.disk.workspace == ROOT
    && w.disk.approvals.Keys <= {0, 1}
    && w.memory == Some(m) && w.own == None && w.pc == pc
    && w.trees == map[ROOT := SINGLE]
    && w.history.runs.Keys <= {0, 1} && w.history.settled == {}
  }

  ghost predicate Traced(w: World, open: Option<Id>, context: Option<Id>, oldDrafts: set<ThreadId>, diskIsOld: bool) {
    w.history.open == open && w.history.freshness == Freshness(context, oldDrafts, diskIsOld)
  }

  const SAVING := Exec(Save(LOCAL, true, 0, SingleSnapshot(ROOT), {}))

  lemma Asked() returns (w: World)
    ensures Reachable(w)
    ensures w.disk == Disk(None, map[], map[0 := Pending], ROOT)
    ensures w.memory.Some? && w.memory.value.pending == map[0 := CommandAt(0, 0)]
    ensures w.drafts == map[] && w.own == None && w.trees == map[ROOT := SINGLE] && w.pc == Free
    ensures w.history.runs == map[0 := RunRecord([COMMAND], [], [])]
    ensures w.history.settled == {} && Traced(w, None, None, {}, false)
  {
    var w1 := Started();
    hide Reachable, IsRun, WellFormed;
    var a2 := Exec(StartContract(0, [COMMAND]));
    ReachNext(w1, a2);
    var w2 := Apply(w1, a2);
    assert AtCommand(w2);
    var a3 := Exec(Ask(LOCAL, true, 0));
    ReachNext(w2, a3);
    w := Apply(w2, a3);
  }

  lemma Started() returns (w: World)
    ensures Reachable(w)
    ensures w.disk == Disk(None, map[], map[], ROOT) && w.memory == Some(FRESH_MEMORY)
    ensures w.drafts == map[] && w.own == None && w.trees == map[ROOT := SINGLE] && w.pc == Free
    ensures w.history == NO_HISTORY
  {
    SingleIsCaptured(ROOT);
    hide Reachable, IsRun, WellFormed;
    var w0 := World(Disk(None, map[], map[], ROOT), None, map[], None, map[ROOT := SINGLE], Free, NO_HISTORY);
    InitialIsReachable(w0);
    assert Finds(w0.disk, None);
    ReachNext(w0, Process(Boot(None)));
    w := Apply(w0, Process(Boot(None)));
  }

  lemma Window() returns (w: World)
    ensures Reachable(w)
    ensures w.disk == Disk(None, map[], map[0 := Approved], ROOT) && w.memory.Some?
    ensures w.drafts == map[] && w.own == None && w.trees == map[ROOT := SINGLE]
    ensures w.pc == Pc.Window(0, 0, Some(0), ROOT, Choosing)
    ensures w.history.runs == map[0 := RunRecord([COMMAND], [], [])]
    ensures w.history.settled == {} && Traced(w, None, None, {}, false)
  {
    hide Reachable, IsRun, WellFormed;
    var w3 := Asked();
    ReachNext(w3, Exec(Approve(0)));
    w := Apply(w3, Exec(Approve(0)));
  }

  lemma SavedOnce() returns (w: World)
    ensures Reachable(w)
    ensures w.disk == Disk(None, map[0 := SavedRow(Ready)], map[0 := Approved], ROOT) && w.memory.Some?
    ensures w.trees == map[ROOT := SINGLE] && w.history.runs.Keys == {0}
    ensures w.history.settled == {} && Traced(w, None, None, {}, false)
  {
    SingleIsCaptured(ROOT);
    hide Reachable, IsRun, WellFormed, Capturable, IsSnapshotOf;
    var w4 := Window();
    assert AtCommand(w4);
    ReachNext(w4, SAVING);
    w := Apply(w4, SAVING);
  }

  /** A crash right after a checkpoint was saved, and a restart. */
  lemma Saved() returns (w: World)
    ensures Reachable(w)
    ensures LooksLike(w, None, Ready, FRESH_MEMORY, Free) && w.drafts == map[] && w.disk.approvals.Keys == {0}
    ensures w.history.runs.Keys == {0} && Traced(w, None, None, {}, false)
  {
    hide Reachable, IsRun, WellFormed;
    var w5 := SavedOnce();
    ReachNext(w5, Process(Crash));
    var w6 := Apply(w5, Process(Crash));
    assert Finds(w6.disk, None);
    ReachNext(w6, Process(Boot(None)));
    w := Apply(w6, Process(Boot(None)));
  }

  /** And then another contract is waiting for an approval. */
  lemma SavedAndAsked() returns (w: World)
    ensures Reachable(w) && w.memory.Some?
    ensures LooksLike(w, None, Ready, w.memory.value, Free) && w.drafts == map[]
    ensures var m := w.memory.value;
            m.pending == map[1 := CommandAt(1, 0)] && m.context.None? && !m.executing && m.lifecycle == Lifecycle.Running
    ensures Traced(w, None, None, {}, false)
  {
    hide Reachable, IsRun, WellFormed;
    var w7 := Saved();
    var a8 := Exec(StartContract(1, [COMMAND]));
    ReachNext(w7, a8);
    var w8 := Apply(w7, a8);
    assert AtCommand(w8);
    var a9 := Exec(Ask(LOCAL, true, 1));
    ReachNext(w8, a9);
    w := Apply(w8, a9);
  }

  function PausedMemory(pending: map<ApprovalId, Continuation>): Memory {
    Memory(Lifecycle.Paused, Activity.Paused, true, false, pending, None, false)
  }

  const OLD_SNAPSHOT := Runtime(Lifecycle.Paused, Activity.Paused, true, false, None)

  /** The user pauses, and a worker takes its snapshot. */
  lemma PausedWith(w: World) returns (w': World)
    requires Reachable(w) && w.memory.Some? && LooksLike(w, None, Ready, w.memory.value, Free) && w.drafts == map[]
    requires w.memory.value.context.None? && !w.memory.value.executing
    requires w.memory.value.lifecycle != Lifecycle.RecoveryRequired && Traced(w, None, None, {}, false)
    ensures Reachable(w') && LooksLike(w', None, Ready, PausedMemory(w.memory.value.pending), Free)
    ensures w'.drafts == map[7 := OLD_SNAPSHOT] && Traced(w', None, None, {}, false)
  {
    hide Reachable, IsRun, WellFormed;
    var a1 := Fields(Message(Lifecycle.Paused, Activity.Paused, true, false));
    ReachNext(w, a1);
    var w1 := Apply(w, a1);
    var a2 := Fields(TakeSnapshot(7));
    ReachNext(w1, a2);
    w' := Apply(w1, a2);
  }

  /** The rollback is announced, the row claimed and the checkpoint named. */
  lemma Named(w: World, pending: map<ApprovalId, Continuation>) returns (w': World)
    requires Reachable(w) && LooksLike(w, None, Ready, PausedMemory(pending), Free)
    requires w.drafts == map[7 := OLD_SNAPSHOT] && Traced(w, None, None, {}, false)
    ensures Reachable(w') && w'.disk.runtime.Some?
    ensures LooksLike(w', w'.disk.runtime, RollingBack, RollingMemory(pending), Pc.Named(0))
    ensures w'.drafts == map[7 := OLD_SNAPSHOT] && Traced(w', Some(0), Some(0), {7}, true)
  {
    hide Reachable, IsRun, WellFormed;
    var w4 := Claimed(w, pending);
    ReachNext(w4, Rollback(NameCheckpoint));
    w' := Apply(w4, Rollback(NameCheckpoint));
  }

  lemma Claimed(w: World, pending: map<ApprovalId, Continuation>) returns (w': World)
    requires Reachable(w) && LooksLike(w, None, Ready, PausedMemory(pending), Free)
    requires w.drafts == map[7 := OLD_SNAPSHOT] && Traced(w, None, None, {}, false)
    ensures Reachable(w') && w'.disk.runtime.Some?
    ensures LooksLike(w', w'.disk.runtime, RollingBack, RollingMemory(pending).(context := None), Won(0))
    ensures w'.drafts == map[7 := OLD_SNAPSHOT] && Traced(w', Some(0), None, {}, false)
  {
    hide Reachable, IsRun, WellFormed;
    var w3 := Announced(w, pending);
    ReachNext(w3, Rollback(Claim));
    w' := Apply(w3, Rollback(Claim));
  }

  function RollingMemory(pending: map<ApprovalId, Continuation>): Memory {
    Memory(Lifecycle.Recovering, Activity.Recovering, true, false, pending, Some(Context(0, RollingBack)), false)
  }

  lemma Announced(w: World, pending: map<ApprovalId, Continuation>) returns (w': World)
    requires Reachable(w) && LooksLike(w, None, Ready, PausedMemory(pending), Free)
    requires w.drafts == map[7 := OLD_SNAPSHOT] && Traced(w, None, None, {}, false)
    ensures Reachable(w') && w'.disk.runtime.Some?
    ensures LooksLike(w', w'.disk.runtime, Ready, RollingMemory(pending).(context := None), Announcing(0))
    ensures w'.drafts == map[7 := OLD_SNAPSHOT] && Traced(w', None, None, {}, false)
  {
    hide Reachable, IsRun, WellFormed;
    ReachNext(w, Rollback(Begin(0)));
    var w1 := Apply(w, Rollback(Begin(0)));
    ReachNext(w1, Fields(TakeOwn));
    var w2 := Apply(w1, Fields(TakeOwn));
    ReachNext(w2, Rollback(Announce));
    w' := Apply(w2, Rollback(Announce));
  }

  /** The restore is entered and refuses an archive that has been tampered with. */
  lemma Refused(w: World, pending: map<ApprovalId, Continuation>) returns (w': World)
    requires Reachable(w) && w.disk.runtime.Some?
    requires LooksLike(w, w.disk.runtime, RollingBack, RollingMemory(pending), Pc.Named(0))
    requires w.drafts == map[7 := OLD_SNAPSHOT] && Traced(w, Some(0), Some(0), {7}, true)
    ensures Reachable(w') && w'.disk.runtime.Some?
    ensures LooksLike(w', w'.disk.runtime, RollingBack, RollingMemory(pending), Pc.Refused(0))
    ensures w'.drafts == map[7 := OLD_SNAPSHOT] && Traced(w', Some(0), Some(0), {7}, false)
  {
    hide Reachable, IsRun, WellFormed;
    var w2 := Confirmed(w, pending);
    ReachNext(w2, Rollback(EnterRestore));
    var w3 := Apply(w2, Rollback(EnterRestore));
    ReachNext(w3, Rollback(RefuseRestore([])));
    w' := Apply(w3, Rollback(RefuseRestore([])));
  }

  lemma Confirmed(w: World, pending: map<ApprovalId, Continuation>) returns (w': World)
    requires Reachable(w) && w.disk.runtime.Some?
    requires LooksLike(w, w.disk.runtime, RollingBack, RollingMemory(pending), Pc.Named(0))
    requires w.drafts == map[7 := OLD_SNAPSHOT] && Traced(w, Some(0), Some(0), {7}, true)
    ensures Reachable(w') && w'.disk.runtime.Some?
    ensures LooksLike(w', w'.disk.runtime, RollingBack, RollingMemory(pending), Entering(0))
    ensures w'.drafts == map[7 := OLD_SNAPSHOT] && Traced(w', Some(0), Some(0), {7}, false)
  {
    hide Reachable, IsRun, WellFormed;
    ReachNext(w, Fields(TakeOwn));
    var w1 := Apply(w, Fields(TakeOwn));
    ReachNext(w1, Rollback(ConfirmClaim));
    w' := Apply(w1, Rollback(ConfirmClaim));
  }

  /** The rollback has failed in this process; the fields say so. */
  lemma FailedRow(pending: map<ApprovalId, Continuation>, w: World) returns (w': World)
    requires Reachable(w) && LooksLike(w, None, Ready, PausedMemory(pending), Free)
    requires w.drafts == map[7 := OLD_SNAPSHOT] && Traced(w, None, None, {}, false)
    ensures Reachable(w') && w'.disk.runtime.Some?
    ensures LooksLike(w', w'.disk.runtime, RollbackFailed, RollingMemory(pending), MarkedFailed(0))
    ensures w'.drafts == map[7 := OLD_SNAPSHOT] && Traced(w', Some(0), Some(0), {7}, false)
  {
    hide Reachable, IsRun, WellFormed;
    var w1 := Named(w, pending);
    var w2 := Refused(w1, pending);
    ReachNext(w2, Rollback(FailRow));
    w' := Apply(w2, Rollback(FailRow));
  }

  /**
   The gate is not airtight on every run: a command is waiting for its approval, the run is
   paused, a rollback fails, and the approval still opens a command window although nothing
   but a decision should be possible.
   */
  lemma ApprovalPassesTheGate() returns (w: World)
    ensures Reachable(w) && w.pc.Free? && w.memory.Some?
    ensures w.memory.value.lifecycle == Lifecycle.RecoveryRequired
    ensures Enabled(w, Exec(Approve(1))) && !WaitsOrDecides(Exec(Approve(1)))
    ensures Apply(w, Exec(Approve(1))).pc == Pc.Window(1, 0, Some(1), ROOT, Choosing)
  {
    hide Reachable, IsRun, WellFormed;
    var w1 := SavedAndAsked();
    var w2 := PausedWith(w1);
    var w3 := FailedRow(map[1 := CommandAt(1, 0)], w2);
    ReachNext(w3, Rollback(FailFields));
    w := Apply(w3, Rollback(FailFields));
  }

  /**
   A restart may forget a failed rollback: a worker's snapshot from before the rollback is
   written after it, and the restart comes up paused as if nothing had happened.
   */
  lemma RestartForgetsFailedRollback() returns (w: World)
    ensures Reachable(w) && w.history.open == Some(0)
    ensures 0 in w.disk.rows && w.disk.rows[0].status == RollbackFailed
    ensures Finds(w.disk, None) && RestoredMemory(w.disk, None) == PausedMemory(map[])
  {
    hide Reachable, IsRun, WellFormed;
    var w1 := Saved();
    var w2 := PausedWith(w1);
    var w3 := FailedRow(map[], w2);
    ReachNext(w3, Fields(WriteSnapshot(7)));
    var w4 := Apply(w3, Fields(WriteSnapshot(7)));
    ReachNext(w4, Process(Crash));
    w := Apply(w4, Process(Crash));
    assert OLD_SNAPSHOT.lifecycle !in RECOVERY_LIFECYCLES && OLD_SNAPSHOT.status !in RECOVERY_STATUSES;
  }

  /** A failed rollback has been reported, and the worker has a snapshot of that. */
  lemma FailureSeen() returns (w: World)
    ensures Reachable(w) && w.disk.runtime.Some? && w.drafts == map[7 := FAILED_SNAPSHOT]
    ensures LooksLike(w, w.disk.runtime, RollbackFailed, FAILED_MEMORY, Free)
  {
    hide Reachable, IsRun, WellFormed;
    var w1 := Saved();
    var w2 := PausedWith(w1);
    var w3 := FailedRow(map[], w2);
    ReachNext(w3, Rollback(FailFields));
    var w4 := Apply(w3, Rollback(FailFields));
    ReachNext(w4, Fields(TakeSnapshot(7)));
    w := Apply(w4, Fields(TakeSnapshot(7)));
  }

  const FAILED_MEMORY := Memory(
    Lifecycle.RecoveryRequired, Activity.RecoveryRequired, true, false, map[], Some(Context(0, RollbackFailed)), false)

  const FAILED_SNAPSHOT := Runtime(
    Lifecycle.RecoveryRequired, Activity.RecoveryRequired, true, false, Some(Context(0, RollbackFailed)))

  /** The human decides, and the decision reaches the disk. */
  lemma Decided() returns (w: World)
    ensures Reachable(w) && w.memory.Some? && w.memory.value.lifecycle == Lifecycle.Paused
    ensures w.disk.rows == map[0 := SavedRow(RollbackFailed)] && w.history.settled == {0}
    ensures w.drafts == map[7 := FAILED_SNAPSHOT]
  {
    hide Reachable, IsRun, WellFormed;
    var w4 := Sealing();
    ReachNext(w4, Fields(TakeOwn));
    var w5 := Apply(w4, Fields(TakeOwn));
    ReachNext(w5, Rollback(SealDecision));
    w := Apply(w5, Rollback(SealDecision));
  }

  lemma Sealing() returns (w: World)
    ensures Reachable(w) && w.pc == Pc.Sealing(Some(0)) && w.own == None
    ensures w.memory.Some? && w.memory.value.lifecycle == Lifecycle.Paused
    ensures w.disk.rows == map[0 := SavedRow(RollbackFailed)] && w.history.settled == {}
    ensures w.drafts == map[7 := FAILED_SNAPSHOT]
  {
    hide Reachable, IsRun, WellFormed;
    var w1 := FailureSeen();
    ReachNext(w1, Rollback(BeginDecision(false)));
    var w2 := Apply(w1, Rollback(BeginDecision(false)));
    ReachNext(w2, Rollback(InvalidateRow));
    var w3 := Apply(w2, Rollback(InvalidateRow));
    ReachNext(w3, Rollback(ClearFields));
    w := Apply(w3, Rollback(ClearFields));
  }

  /**
   A restart may ask again about a rollback that has been decided: the worker's snapshot of
   the failure is written after the decision.
   */
  lemma RestartAsksAgainAfterDecision() returns (w: World)
    ensures Reachable(w) && 0 in w.history.settled
    ensures Finds(w.disk, None) && RestoredMemory(w.disk, None) == FAILED_MEMORY
  {
    hide Reachable, IsRun, WellFormed;
    var w1 := Decided();
    ReachNext(w1, Fields(WriteSnapshot(7)));
    var w2 := Apply(w1, Fields(WriteSnapshot(7)));
    ReachNext(w2, Process(Crash));
    w := Apply(w2, Process(Crash));
  }

  const HARMLESS := Command("ls", Some(Policy.R0))

  lemma Armed() returns (w: World)
    ensures Reachable(w) && LooksLikeRunning(w, None) && w.pc == Pc.Window(0, 0, None, ROOT, Phase.Armed(RISK, None))
  {
    var w1 := Started();
    hide Reachable, IsRun, WellFormed;
    ReachNext(w1, Exec(StartContract(0, [HARMLESS])));
    var w2 := Apply(w1, Exec(StartContract(0, [HARMLESS])));
    assert AtCommand(w2);
    ReachNext(w2, Exec(Arm(LOCAL, true)));
    w := Apply(w2, Exec(Arm(LOCAL, true)));
  }

  const RISK := Policy.MergeRisk(LOCAL, Some(Policy.R0))

  const RUNNING := Runtime(Lifecycle.Running, Activity.Running, false, false, None)

  ghost predicate LooksLikeRunning(w: World, runtime: Option<Runtime>) {
    && w.disk.runtime == runtime && w.disk.rows == map[] && w.disk.workspace == ROOT
    && w.memory.Some? && w.memory.value.lifecycle.Running? && w.memory.value.pending == map[]
    && !w.memory.value.paused && !w.memory.value.guarded && w.memory.value.context.None?
    && w.drafts == map[] && w.own == None && w.trees == map[ROOT := SINGLE] && 0 in w.history.runs
  }

  lemma Executing() returns (w: World)
    ensures Reachable(w) && LooksLikeRunning(w, Some(RUNNING)) && w.pc.Window? && w.pc.phase.Executing?
  {
    hide Reachable, IsRun, WellFormed;
    var w1 := Armed();
    ReachNext(w1, Exec(SetRunning));
    var w2 := Apply(w1, Exec(SetRunning));
    ReachNext(w2, Fields(TakeOwn));
    var w3 := Apply(w2, Fields(TakeOwn));
    ReachNext(w3, Exec(AnnounceCommand));
    var w4 := Apply(w3, Exec(AnnounceCommand));
    ReachNext(w4, Exec(Run));
    w := Apply(w4, Exec(Run));
  }

  /**
   A command that is cut off need not be asked about: the run is paused while the command is
   running, and the pause becomes durable; after a crash the host comes up paused as if the
   command had come to its end.
   */
  lemma PausedCommandIsNotAskedAbout() returns (w: World)
    ensures Reachable(w) && w.pc.Window? && w.pc.phase.Executing?
    ensures Finds(w.disk, None) && RestoredMemory(w.disk, None) == PausedMemory(map[])
  {
    hide Reachable, IsRun, WellFormed;
    var w1 := Executing();
    var pause := Message(Lifecycle.Paused, Activity.Paused, true, false);
    ReachNext(w1, Fields(pause));
    var w2 := Apply(w1, Fields(pause));
    ReachNext(w2, Fields(TakeSnapshot(0)));
    var w3 := Apply(w2, Fields(TakeSnapshot(0)));
    ReachNext(w3, Fields(WriteSnapshot(0)));
    w := Apply(w3, Fields(WriteSnapshot(0)));
    RestartNeverResumes(w.disk, None);
  }
}
